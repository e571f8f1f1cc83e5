/**
 The worker that drains the apply queue, as it updates its fields in place.
 */
module ApplyWorker {
  import opened Wrappers
  import opened Batching

  /** How an attempt at a write ends; `Cancelled` is an abort seen before it. */
  datatype Try = Succeeds | Fails | FailsForGood | Cancelled

  /** Some attempt succeeds, and none before it fails for good or is cancelled. */
  predicate Succeeded(tries: seq<Try>) {
    exists i :: 0 <= i < |tries| && tries[i].Succeeds? && forall j | 0 <= j < i :: tries[j].Fails?
  }

  /** There is at least one attempt: the number of retries can only be set to a positive number. */
  type Tries = tries: seq<Try> | tries != [] witness [Succeeds]

  /** What the other goroutines do while the worker handles one task, and how its writes go. */
  datatype Turn = Turn(abort: bool, resize: Option<int>, before: seq<Task>, during: seq<Task>,
                       commit: Tries, run: Tries)

  const MAX_EVENTS_BATCH_SIZE := 1000

  // ----- batches of a longer or shorter queue

  lemma {:induction false} TakenAll(queue: seq<Task>, have: nat, size: nat)
    ensures Taken(queue[..Taken(queue, have, size)], have, size) == Taken(queue, have, size)
  {
    var n := Taken(queue, have, size);
    if n > 1 {
      var have' := if queue[0].Dml? then have + 1 else have;
      TakenAll(queue[1..], have', size);
      assert queue[..n][1..] == queue[1..][..n - 1];
    } else if n == 1 {
      assert queue[..1][1..] == [];
    }
  }

  /** A batch is a batch also of the queue that goes on in any other way behind it. */
  lemma BatchAgain(queue: seq<Task>, available: nat, size: nat, rest: seq<Task>)
    requires queue != [] && available < |queue|
    ensures var tasks := Batch(queue, available, size);
            Batch(tasks + rest, |tasks| - 1, size) == tasks
  {
    var tasks := Batch(queue, available, size);
    if queue[0].Dml? {
      var behind := queue[1..1 + available];
      TakenAll(behind, 1, size);
      assert (tasks + rest)[1..|tasks|] == behind[..Taken(behind, 1, size)];
    }
    assert (tasks + rest)[..|tasks|] == tasks;
  }

  lemma BatchPrefix(a: seq<Task>, b: seq<Task>, available: nat, size: nat)
    requires a != [] && available < |a|
    ensures Batch(a + b, available, size) == Batch(a, available, size)
    ensures var tasks := Batch(a, available, size); (a + b)[|tasks|..] == a[|tasks|..] + b
  {
    assert (a + b)[1..1 + available] == a[1..1 + available];
    var tasks := Batch(a, available, size);
    assert (a + b)[..|tasks|] == a[..|tasks|];
  }

  /** The batch a look takes, and what is left behind it. */
  function Rest(queue: seq<Task>, look: Look): seq<Task>
    requires queue != [] && look.available < |queue|
  {
    queue[|Batch(queue, look.available, look.size)|..]
  }

  lemma RestAppend(a: seq<Task>, b: seq<Task>, look: Look)
    requires a != [] && look.available < |a|
    ensures Rest(a + b, look) == Rest(a, look) + b
  {
    BatchPrefix(a, b, look.available, look.size);
  }

  lemma {:induction false} DrainsAppend(a: seq<Task>, x: seq<Look>, b: seq<Task>, y: seq<Look>)
    requires Drains(a, x) && Drains(b, y)
    ensures Drains(a + b, x + y)
    decreases |a|
  {
    if a == [] {
      assert a + b == b && x + y == y;
    } else {
      assert Drains(Rest(a, x[0]), x[1..]);
      DrainsAppend(Rest(a, x[0]), x[1..], b, y);
      RestAppend(a, b, x[0]);
      assert (x + y)[0] == x[0] && (x + y)[1..] == x[1..] + y;
    }
  }

  lemma RunStep(queue: seq<Task>, looks: seq<Look>)
    requires Drains(queue, looks) && queue != []
    ensures looks != [] && looks[0].available < |queue| && Drains(Rest(queue, looks[0]), looks[1..])
    ensures Run(queue, looks) ==
            Handle(Batch(queue, looks[0].available, looks[0].size)) + Run(Rest(queue, looks[0]), looks[1..])
  {
  }

  lemma Associate(x: seq<Effect>, y: seq<Effect>, z: seq<Effect>)
    ensures x + (y + z) == (x + y) + z
  {
  }

  lemma {:induction false} RunAppend(a: seq<Task>, x: seq<Look>, b: seq<Task>, y: seq<Look>)
    requires Drains(a, x) && Drains(b, y) && Drains(a + b, x + y)
    ensures Run(a + b, x + y) == Run(a, x) + Run(b, y)
    decreases |a|
  {
    if a == [] {
      assert a + b == b && x + y == y;
    } else {
      var rest, later := Rest(a, x[0]), x[1..];
      assert (x + y)[0] == x[0] && (x + y)[1..] == later + y;
      RunStep(a, x);
      RunStep(a + b, x + y);
      RestAppend(a, b, x[0]);
      BatchPrefix(a, b, x[0].available, x[0].size);
      RunAppend(rest, later, b, y);
      Associate(Handle(Batch(a, x[0].available, x[0].size)), Run(rest, later), Run(b, y));
    }
  }

  lemma RunOne(tasks: seq<Task>, look: Look)
    requires tasks != [] && look.available < |tasks| && look.size >= 1 &&
             Batch(tasks, look.available, look.size) == tasks
    ensures Drains(tasks, [look]) && Run(tasks, [look]) == Handle(tasks)
  {
    assert [look][1..] == [] && Rest(tasks, look) == [];
    assert Drains(Rest(tasks, look), [look][1..]);
    RunStep(tasks, [look]);
  }

  /** One more batch handled. */
  lemma DrainsOne(handled: seq<Task>, looks: seq<Look>, queue: seq<Task>, available: nat, size: nat)
    requires Drains(handled, looks) && queue != [] && available < |queue| && size >= 1
    ensures var tasks := Batch(queue, available, size);
            var look := Look(|tasks| - 1, size);
            && Drains(handled + tasks, looks + [look])
            && Run(handled + tasks, looks + [look]) == Run(handled, looks) + Handle(tasks)
  {
    var tasks := Batch(queue, available, size);
    var look := Look(|tasks| - 1, size);
    BatchAgain(queue, available, size, []);
    assert tasks + [] == tasks;
    RunOne(tasks, look);
    DrainsAppend(handled, looks, tasks, [look]);
    RunAppend(handled, looks, tasks, [look]);
  }

  // ----- collecting a batch

  /** Where the collecting loop stands after `i` of the available tasks. */
  ghost predicate Collected(behind: seq<Task>, size: nat, first: nat, i: nat, rows: seq<nat>, marker: Option<nat>) {
    && i <= |behind|
    && rows == [first] + Rows(behind[..i])
    && marker == LastMarker(behind[..i])
    && Writes(behind[..i]) == []
    && Taken(behind, 1, size) == i + Taken(behind[i..], |rows|, size)
  }

  lemma CollectedOne(behind: seq<Task>, size: nat, first: nat, i: nat, rows: seq<nat>, marker: Option<nat>)
    requires Collected(behind, size, first, i, rows, marker) && i < |behind| && |rows| < size
    ensures behind[i].Dml? ==> Collected(behind, size, first, i + 1, rows + [behind[i].pos], marker)
    ensures behind[i].Complete? ==> Collected(behind, size, first, i + 1, rows, Some(behind[i].coord))
    ensures behind[i].Write? ==>
              && Taken(behind, 1, size) == i + 1 && rows == [first] + Rows(behind[..i + 1])
              && marker == LastMarker(behind[..i + 1]) && Writes(behind[..i + 1]) == [behind[i].id]
  {
    var t := behind[i];
    assert behind[..i + 1] == behind[..i] + [t] && behind[i..][0] == t && behind[i..][1..] == behind[i + 1..] &&
           [t][1..] == [];
    RowsAppend(behind[..i], [t]);
    WritesAppend(behind[..i], [t]);
    LastMarkerAppend(behind[..i], [t]);
    assert Rows([t]) == if t.Dml? then [t.pos] else [];
    assert LastMarker([t]) == if t.Complete? then Some(t.coord) else None;
    assert Writes([t]) == if t.Write? then [t.id] else [];
  }

  /** The rows, marker and function collected are those of the batch. */
  lemma CollectedBatch(task: Task, queue: seq<Task>, n: nat, size: nat)
    requires task.Dml? && n == Taken(queue, 1, size)
    ensures var tasks := Batch([task] + queue, |queue|, size);
            && tasks == [task] + queue[..n]
            && Rows(tasks) == [task.pos] + Rows(queue[..n]) && LastMarker(tasks) == LastMarker(queue[..n]) &&
               Writes(tasks) == Writes(queue[..n])
  {
    var all := [task] + queue;
    assert all[1..1 + |queue|] == queue && all[..1 + n] == [task] + queue[..n];
    assert ([task] + queue[..n])[1..] == queue[..n];
  }

  lemma Next(behind: seq<Task>, during: seq<Task>, i: nat, t: Task, rest: seq<Task>)
    requires i < |behind| && [t] + rest == (behind + during)[i..]
    ensures t == behind[i] && rest == (behind + during)[i + 1..]
  {
    assert ([t] + rest)[0] == t && ([t] + rest)[1..] == rest;
    assert (behind + during)[i..][1..] == (behind + during)[i + 1..];
  }

  lemma Split(task: Task, behind: seq<Task>, during: seq<Task>, i: nat)
    requires i <= |behind|
    ensures [task] + behind + during == ([task] + behind[..i]) + (behind + during)[i..]
  {
  }

  lemma HandleOne(task: Task)
    requires !task.Dml?
    ensures Handle([task]) == [if task.Complete? then Acked(task.coord) else Ran(task.id)]
  {
    assert [task][1..] == [];
    assert Rows([task]) == [];
    assert LastMarker([task]) == if task.Complete? then Some(task.coord) else None;
    assert Writes([task]) == if task.Write? then [task.id] else [];
  }

  class Migrator {
    var queue: seq<Task>
    var dmlBatchSize: int
    /** CurrentCoordinates and AppliedTransactionCoordinates of the applier. */
    var current: Option<nat>
    var acked: Option<nat>
    var aborted: bool
    /** What was done to the outside, in order. */
    ghost var effects: seq<Effect>
    /** All tasks that ever came, those handled, and how they fell into batches. */
    ghost var came: seq<Task>
    ghost var handled: seq<Task>
    ghost var looks: seq<Look>

    ghost predicate Sized()
      reads this
    {
      1 <= dmlBatchSize <= MAX_EVENTS_BATCH_SIZE
    }

    /** What was done is a run of the tasks handled, which with the queue are the tasks that came. */
    ghost predicate Valid()
      reads this
    {
      Sized() && IsTrace(came, queue, handled, looks, effects, acked)
    }

    constructor ()
      ensures Valid() && queue == [] && current == None && acked == None && !aborted && effects == []
    {
      queue, dmlBatchSize, current, acked, aborted := [], 10, None, None, false;
      effects, came, handled, looks := [], [], [], [];
    }

    /** A listener adds a task. */
    method Enqueue(task: Task)
      requires Valid()
      modifies this`queue, this`came
      ensures Valid() && queue == old(queue) + [task] && came == old(came) + [task]
    {
      Arrive(handled, queue, [], came, [task]);
      queue, came := queue + [task], came + [task];
    }

    method EnqueueAll(tasks: seq<Task>)
      requires Valid()
      modifies this`queue, this`came
      ensures Valid() && queue == old(queue) + tasks && came == old(came) + tasks
    {
      for i := 0 to |tasks|
        invariant Valid() && queue == old(queue) + tasks[..i] && came == old(came) + tasks[..i]
      {
        Enqueue(tasks[i]);
      }
    }

    method SetDMLBatchSize(size: int)
      modifies this`dmlBatchSize
      ensures 1 <= dmlBatchSize <= MAX_EVENTS_BATCH_SIZE
      ensures 1 <= size <= MAX_EVENTS_BATCH_SIZE ==> dmlBatchSize == size
      ensures size < 1 ==> dmlBatchSize == 1
      ensures size > MAX_EVENTS_BATCH_SIZE ==> dmlBatchSize == MAX_EVENTS_BATCH_SIZE
    {
      var batchSize := size;
      if batchSize < 1 {
        batchSize := 1;
      }
      if batchSize > MAX_EVENTS_BATCH_SIZE {
        batchSize := MAX_EVENTS_BATCH_SIZE;
      }
      dmlBatchSize := batchSize;
    }

    /** Without any attempt there is no error either. */
    method RetryOperation(tries: seq<Try>) returns (ok: bool)
      ensures ok <==> tries == [] || Succeeded(tries)
    {
      for i := 0 to |tries|
        invariant forall j | 0 <= j < i :: tries[j].Fails?
      {
        if tries[i].Cancelled? {
          return false;
        }
        if tries[i].Succeeds? {
          return true;
        }
        if tries[i].FailsForGood? {
          return false;
        }
      }
      return tries == [];
    }

    /** Handles a marker or a function that is not part of a batch of rows. */
    method HandleNonDML(task: Task, run: Tries) returns (ok: bool)
      requires !task.Dml?
      modifies this`acked, this`effects
      ensures ok <==> task.Complete? || Succeeded(run)
      ensures effects == if ok then old(effects) + Handle([task]) else old(effects)
      ensures acked == if task.Complete? then Some(task.coord) else old(acked)
    {
      HandleOne(task);
      if task.Complete? {
        acked := Some(task.coord);
        effects := effects + [Acked(task.coord)];
        return true;
      }
      ok := RetryOperation(run);
      if ok {
        effects := effects + [Ran(task.id)];
      }
    }

    /**
     Draws a batch from the queue while other tasks keep arriving. The queue is
     never empty when the loop receives from it, so the worker does not block.
     */
    method Collect(task: Task, during: seq<Task>) returns (rows: seq<nat>, marker: Option<nat>, function': Option<Task>)
      requires Sized() && task.Dml?
      modifies this`queue
      ensures var tasks := Batch([task] + old(queue), |old(queue)|, dmlBatchSize);
              && [task] + old(queue) + during == tasks + queue
              && rows == Rows(tasks) && rows != [] && marker == LastMarker(tasks)
              && function' == if Writes(tasks) == [] then None else Some(Write(Writes(tasks)[0]))
    {
      ghost var behind, total := queue, queue + during;
      rows, marker, function' := [task.pos], None, None;
      var available, i := |queue|, 0;
      var coming := during;
      while i < available && |rows| < dmlBatchSize
        invariant i <= available == |behind| && |queue| >= available - i
        invariant queue + coming == total[i..]
        invariant Collected(behind, dmlBatchSize, task.pos, i, rows, marker)
      {
        CollectedOne(behind, dmlBatchSize, task.pos, i, rows, marker);
        var additional;
        additional, coming := Receive(coming);
        Next(behind, during, i, additional, queue + coming);
        i := i + 1;
        if additional.Complete? {
          marker := Some(additional.coord);
          continue;
        }
        if additional.Write? {
          function' := Some(additional);
          break;
        }
        rows := rows + [additional.pos];
      }
      queue := queue + coming;
      CollectedBatch(task, behind, i, dmlBatchSize);
      Split(task, behind, during, i);
    }

    /** Receives from the queue, after one of the coming tasks may have arrived. */
    method Receive(coming: seq<Task>) returns (task: Task, rest: seq<Task>)
      requires queue != []
      modifies this`queue
      ensures [task] + (queue + rest) == old(queue) + coming && |queue| >= |old(queue)| - 1
    {
      rest := coming;
      if rest != [] {
        queue, rest := queue + [rest[0]], rest[1..];
      }
      task := queue[0];
      queue := queue[1..];
    }

    /** What is to happen with a batch: whether it succeeds, and the effects it has. */
    ghost predicate Settled(tasks: seq<Task>, turn: Turn, ok: bool, before: seq<Effect>, acked': Option<nat>)
      reads this
    {
      var committed := Rows(tasks) == [] || Succeeded(turn.commit);
      && (ok <==> committed && (Writes(tasks) == [] || Succeeded(turn.run)))
      && (ok ==> effects == before + Handle(tasks))
      && (!ok && committed ==> effects == before + HandleCommit(tasks) + HandleMarker(tasks))
      && (!committed ==> effects == before)
      && acked == if committed then LaterMarker(tasks, acked') else acked'
    }

    method ApplyBatch(task: Task, turn: Turn) returns (ok: bool)
      requires Sized() && task.Dml?
      modifies this`queue, this`current, this`acked, this`effects
      ensures var tasks := Batch([task] + old(queue), |old(queue)|, dmlBatchSize);
              && [task] + old(queue) + turn.during == tasks + queue
              && Settled(tasks, turn, ok, old(effects), old(acked))
      ensures current == if Succeeded(turn.commit) then Some(task.pos) else old(current)
    {
      var rows, marker, function' := Collect(task, turn.during);
      ghost var tasks := Batch([task] + old(queue), |old(queue)|, dmlBatchSize);
      var committed := RetryOperation(turn.commit);
      if !committed {
        return false;
      }
      effects := effects + [Committed(rows)];
      current := Some(task.pos);
      Regroup(old(effects), tasks);
      ok := FinishBatch(marker, function', turn.run, tasks);
    }

    /** After the rows: the last marker, then the function. */
    method FinishBatch(marker: Option<nat>, function': Option<Task>, run: Tries, ghost tasks: seq<Task>)
      returns (ok: bool)
      requires marker == LastMarker(tasks) &&
               function' == if Writes(tasks) == [] then None else Some(Write(Writes(tasks)[0]))
      modifies this`acked, this`effects
      ensures ok <==> Writes(tasks) == [] || Succeeded(run)
      ensures effects == old(effects) + HandleMarker(tasks) + if ok then HandleFunction(tasks) else []
      ensures acked == LaterMarker(tasks, old(acked))
    {
      if marker.Some? {
        acked := marker;
        effects := effects + [Acked(marker.value)];
      }
      ok := true;
      if function'.Some? {
        HandleOne(function'.value);
        ok := HandleNonDML(function'.value, run);
      }
    }

    lemma Regroup(before: seq<Effect>, tasks: seq<Task>)
      ensures before + HandleCommit(tasks) + HandleMarker(tasks) + HandleFunction(tasks) == before + Handle(tasks)
      ensures before + HandleCommit(tasks) + HandleMarker(tasks) + [] ==
              before + HandleCommit(tasks) + HandleMarker(tasks)
    {
    }

    /**
     Handles the task at the head of the queue with those it can be batched with.
     On success all effects of the batch happen, in order. A failed batch of rows
     has no effect and moves no coordinate.
     */
    method OnApplyEventStruct(task: Task, turn: Turn) returns (ok: bool)
      requires Sized()
      modifies this`queue, this`current, this`acked, this`effects
      ensures aborted ==>
                && !ok && queue == old(queue) && effects == old(effects)
                && acked == old(acked) && current == old(current)
      ensures !aborted ==>
                var tasks := Batch([task] + old(queue), |old(queue)|, dmlBatchSize);
                && [task] + old(queue) + (if task.Dml? then turn.during else []) == tasks + queue
                && Settled(tasks, turn, ok, old(effects), old(acked))
      ensures current == if !aborted && task.Dml? && Succeeded(turn.commit) then Some(task.pos) else old(current)
    {
      if aborted {
        return false;
      }
      if task.Dml? {
        ok := ApplyBatch(task, turn);
        return;
      }
      ok := HandleNonDML(task, turn.run);
      Single(task, old(queue), dmlBatchSize);
    }

    method HandleHead(turn: Turn) returns (ok: bool, ghost tasks: seq<Task>, ghost arrived: seq<Task>)
      requires Sized() && !aborted && queue != []
      modifies this`queue, this`current, this`acked, this`effects
      ensures tasks == Batch(old(queue), |old(queue)| - 1, dmlBatchSize) && old(queue) + arrived == tasks + queue
      ensures Settled(tasks, turn, ok, old(effects), old(acked))
    {
      var task := queue[0];
      queue := queue[1..];
      assert [task] + queue == old(queue);
      tasks := Batch(old(queue), |old(queue)| - 1, dmlBatchSize);
      arrived := if task.Dml? then turn.during else [];
      ok := OnApplyEventStruct(task, turn);
    }

    /** Takes the head of the queue and handles it; `failed` is the batch that could not be handled. */
    method TakeTurn(turn: Turn) returns (ok: bool, ghost failed: seq<Task>)
      requires Valid() && !aborted && queue != []
      modifies this`queue, this`current, this`acked, this`effects, this`came, this`handled, this`looks
      ensures old(came) <= came
      ensures ok ==> Valid() && |looks| == |old(looks)| + 1
      ensures !ok ==> Sized() && Halted(came, queue, handled, looks, effects, acked, failed, dmlBatchSize)
      ensures !ok ==> StopsAt(failed, turn, effects == Run(handled, looks))
    {
      ghost var all := queue;
      ghost var arrived;
      ok, failed, arrived := HandleHead(turn);
      came := came + arrived;
      if ok {
        TraceGrows(old(came), arrived, all, queue, failed, handled, looks, old(effects), old(acked), dmlBatchSize);
        handled, looks := handled + failed, looks + [Look(|failed| - 1, dmlBatchSize)];
      } else {
        TraceHalts(old(came), arrived, all, queue, failed, handled, looks, old(effects), old(acked), dmlBatchSize);
        NotEmpty(Run(handled, looks), failed);
      }
    }

    /**
     The worker's loop. Whatever arrives, however it is batched and wherever it
     stops: what it did is a run of the tasks handled, plus at most the commit and
     the acknowledgement of the batch that failed.
     */
    method ExecuteWriteFuncs(turns: seq<Turn>) returns (ok: bool, ghost failed: seq<Task>)
      requires Valid() && !aborted
      modifies this
      ensures old(came) <= came
      ensures ok ==> Valid()
      ensures ok && (forall t | 0 <= t < |turns| :: turns[t].before != []) ==> |looks| == |old(looks)| + |turns|
      ensures !ok ==> Sized() && Halted(came, queue, handled, looks, effects, acked, failed, dmlBatchSize)
      ensures !ok ==> if aborted then failed == []
                      else exists t :: 0 <= t < |turns| && StopsAt(failed, turns[t], effects == Run(handled, looks))
      ensures RowsOf(Run(handled, looks)) == Rows(handled) && BatchesWithin(Run(handled, looks), MAX_EVENTS_BATCH_SIZE)
    {
      ok, failed := true, [];
      for t := 0 to |turns|
        invariant ok && Valid() && !aborted && old(came) <= came
        invariant (forall i | 0 <= i < |turns| :: turns[i].before != []) ==> |looks| == |old(looks)| + t
      {
        ok, failed := Proceed(turns[t]);
        if !ok {
          break;
        }
      }
      TraceRows(handled, looks);
    }

    /** One round of the loop. */
    method Proceed(turn: Turn) returns (ok: bool, ghost failed: seq<Task>)
      requires Valid() && !aborted
      modifies this
      ensures old(came) <= came
      ensures ok ==> Valid() && !aborted && (turn.before != [] ==> |looks| == |old(looks)| + 1)
      ensures !ok ==> Sized() && Halted(came, queue, handled, looks, effects, acked, failed, dmlBatchSize)
      ensures !ok ==> if aborted then failed == [] else StopsAt(failed, turn, effects == Run(handled, looks))
    {
      aborted := turn.abort;
      if aborted {
        return false, [];
      }
      if turn.resize.Some? {
        SetDMLBatchSize(turn.resize.value);
      }
      EnqueueAll(turn.before);
      ok, failed := true, [];
      if queue != [] {
        ok, failed := TakeTurn(turn);
      }
    }
  }

  /** The turn stops the worker at the batch: without any effect, or after the batch's commit and acknowledgement. */
  ghost predicate StopsAt(failed: seq<Task>, turn: Turn, without: bool) {
    && failed != []
    && (Rows(failed) != [] ==> (without <==> !Succeeded(turn.commit)))
    && (Rows(failed) == [] || Succeeded(turn.commit) ==> Writes(failed) != [] && !Succeeded(turn.run))
  }

  /**
   The worker's history when it stopped: the tasks handled, the batch that failed
   and the queue are the tasks that came. Either nothing of that batch happened,
   or its rows were committed and its marker acknowledged.
   */
  ghost predicate Halted(came: seq<Task>, queue: seq<Task>, handled: seq<Task>, looks: seq<Look>, effects: seq<Effect>,
                         acked: Option<nat>, failed: seq<Task>, size: nat) {
    && handled + failed + queue == came
    && Drains(handled, looks) && SizesWithin(looks, MAX_EVENTS_BATCH_SIZE)
    && (failed != [] ==> Batch(failed, |failed| - 1, size) == failed)
    && (|| (effects == Run(handled, looks) && acked == LastMarker(handled))
        || (effects == Run(handled, looks) + HandleCommit(failed) + HandleMarker(failed) &&
            acked == LastMarker(handled + failed)))
  }

  /** The worker's history fits together. */
  ghost predicate IsTrace(came: seq<Task>, queue: seq<Task>, handled: seq<Task>, looks: seq<Look>,
                          effects: seq<Effect>, acked: Option<nat>) {
    && handled + queue == came
    && Drains(handled, looks) && effects == Run(handled, looks)
    && SizesWithin(looks, MAX_EVENTS_BATCH_SIZE)
    && acked == LastMarker(handled)
  }

  predicate SizesWithin(looks: seq<Look>, most: nat) {
    forall i | 0 <= i < |looks| :: looks[i].size <= most
  }

  lemma TraceGrows(came: seq<Task>, arrived: seq<Task>, all: seq<Task>, queue: seq<Task>, tasks: seq<Task>,
                   handled: seq<Task>, looks: seq<Look>, effects: seq<Effect>, acked: Option<nat>, size: nat)
    requires all != [] && 1 <= size <= MAX_EVENTS_BATCH_SIZE && IsTrace(came, all, handled, looks, effects, acked)
    requires tasks == Batch(all, |all| - 1, size) && all + arrived == tasks + queue
    ensures IsTrace(came + arrived, queue, handled + tasks, looks + [Look(|tasks| - 1, size)], effects + Handle(tasks),
                    LaterMarker(tasks, acked))
  {
    DrainsOne(handled, looks, all, |all| - 1, size);
    Arrive(handled, all, [], came, arrived);
    Move(handled, tasks, queue, all + arrived);
    LastMarkerAppend(handled, tasks);
    SizesGrow(looks, Look(|tasks| - 1, size), MAX_EVENTS_BATCH_SIZE);
  }

  function LaterMarker(tasks: seq<Task>, acked: Option<nat>): Option<nat> {
    if LastMarker(tasks).Some? then LastMarker(tasks) else acked
  }

  lemma TraceHalts(came: seq<Task>, arrived: seq<Task>, all: seq<Task>, queue: seq<Task>, tasks: seq<Task>,
                   handled: seq<Task>, looks: seq<Look>, effects: seq<Effect>, acked: Option<nat>, size: nat)
    requires all != [] && 1 <= size <= MAX_EVENTS_BATCH_SIZE && IsTrace(came, all, handled, looks, effects, acked)
    requires tasks == Batch(all, |all| - 1, size) && all + arrived == tasks + queue
    ensures Halted(came + arrived, queue, handled, looks, effects, acked, tasks, size)
    ensures Halted(came + arrived, queue, handled, looks, effects + HandleCommit(tasks) + HandleMarker(tasks),
                   LaterMarker(tasks, acked), tasks, size)
  {
    Arrive(handled, all, [], came, arrived);
    Move(handled, tasks, queue, all + arrived);
    LastMarkerAppend(handled, tasks);
    BatchAgain(all, |all| - 1, size, []);
    assert tasks + [] == tasks;
  }

  /** A commit shows among the effects. */
  lemma NotEmpty(before: seq<Effect>, tasks: seq<Task>)
    ensures Rows(tasks) != [] ==> before != before + HandleCommit(tasks) + HandleMarker(tasks)
  {
    if Rows(tasks) != [] {
      assert |before + HandleCommit(tasks) + HandleMarker(tasks)| > |before|;
    }
  }

  lemma SizesGrow(looks: seq<Look>, look: Look, most: nat)
    requires SizesWithin(looks, most) && look.size <= most
    ensures SizesWithin(looks + [look], most)
  {
  }

  lemma TraceRows(handled: seq<Task>, looks: seq<Look>)
    requires Drains(handled, looks) && SizesWithin(looks, MAX_EVENTS_BATCH_SIZE)
    ensures RowsOf(Run(handled, looks)) == Rows(handled) && BatchesWithin(Run(handled, looks), MAX_EVENTS_BATCH_SIZE)
  {
    BatchesPartitionRows(handled, looks);
    BatchSizes(handled, looks, MAX_EVENTS_BATCH_SIZE);
  }

  lemma Arrive(handled: seq<Task>, queue: seq<Task>, start: seq<Task>, came: seq<Task>, more: seq<Task>)
    requires handled + queue == start + came
    ensures handled + (queue + more) == start + (came + more)
  {
    assert handled + (queue + more) == (handled + queue) + more;
    assert start + (came + more) == (start + came) + more;
  }

  lemma Move(handled: seq<Task>, tasks: seq<Task>, queue: seq<Task>, all: seq<Task>)
    requires all == tasks + queue
    ensures handled + all == (handled + tasks) + queue
  {
  }

  lemma Single(task: Task, queue: seq<Task>, size: nat)
    requires !task.Dml?
    ensures var tasks := Batch([task] + queue, |queue|, size);
            && tasks == [task] && [task] + queue + [] == tasks + queue && Rows(tasks) == [] && HandleCommit(tasks) == []
            && Writes(tasks) == (if task.Write? then [task.id] else [])
            && LastMarker(tasks) == (if task.Complete? then Some(task.coord) else None)
            && (task.Write? ==> HandleMarker(tasks) == [])
  {
    assert [task][1..] == [];
  }
}
