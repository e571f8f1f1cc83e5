/**
 What the replay gets done. No sentinel on its way is dropped, and from every state that
 met no hazard the replay can come to rest with everything logged on the ghost, exactly
 if the dispatcher runs and the batch in hand can be committed.
 */
module ReplayProgress {
  import opened Wrappers
  import opened Keys
  import opened Replay
  import opened Batching
  import opened Flow
  import opened Protocol
  import opened ProtocolProof
  import opened ProtocolTheorems
  import RA = ReplayAlone

  // ----- no sentinel is dropped

  /** A batch in hand holds a function only in last place. */
  predicate HandInv(w: Worker) {
    w.hand.Holding? ==> FunctionLast(w.hand.tasks)
  }

  lemma HandKept(s: State, step: Step)
    requires HandInv(s.worker) && Enabled(s, step)
    ensures HandInv(Next(s, step).worker)
  {
    match step
    case ByServer(x) => assert ServerNext(s, x).worker == s.worker;
    case ByStream(x) => assert StreamNext(s, x).worker.hand == s.worker.hand;
    case ByWorker(x) =>
      if x.Take? {
        BatchFunctionLast(s.worker.queue, x.available, x.size);
      }
    case ByCopy(x) => assert CopyNext(s, x).worker == s.worker;
    case ByProcess(x) =>
  }

  lemma {:induction false} HandRun(s: State, steps: seq<Step>)
    requires HandInv(s.worker) && IsRun(s, steps)
    ensures HandInv(Final(s, steps).worker)
    decreases |steps|
  {
    if steps != [] {
      HandKept(s, steps[0]);
      HandRun(Next(s, steps[0]), steps[1..]);
    }
  }

  /** The sentinel ran, or is with the worker or about to be. */
  predicate Underway(s: State, id: nat) {
    id in s.worker.ran || id in s.stream.waiting || Write(id) in InWork(s.worker)
  }

  /** Or it is still to be dispatched. */
  predicate Coming(s: State, id: nat) {
    Underway(s, id) || (s.stream.dispatching && Write(id) in s.stream.channel)
  }

  lemma {:induction false} SentinelIsFunction(tasks: seq<Task>, id: nat)
    ensures Write(id) in tasks <==> id in Writes(tasks)
  {
    if tasks != [] {
      SentinelIsFunction(tasks[1..], id);
      assert tasks == [tasks[0]] + tasks[1..];
    }
  }

  /** Committing the rows of a batch keeps its function. */
  lemma LeftoverKeeps(tasks: seq<Task>, id: nat)
    requires FunctionLast(tasks) && Write(id) in tasks
    ensures Write(id) in Leftover(tasks)
  {
    SentinelIsFunction(tasks, id);
    FunctionIsLast(tasks);
    var i :| 0 <= i < |tasks| && tasks[i] == Write(id);
    assert i == |tasks| - 1;
  }

  lemma UnderwayByWorker(s: State, step: WorkerStep, id: nat)
    requires HandInv(s.worker) && Underway(s, id) && WorkerEnabled(s, step)
    ensures Underway(WorkerNext(s, step), id)
  {
    var w, s' := s.worker, WorkerNext(s, step);
    assert s'.stream == s.stream && w.ran <= s'.worker.ran;
    if Write(id) in InWork(w) {
      match step
      case Take(available, size) => TakeFlow(s, available, size);
      case CommitBatch =>
        if Write(id) in w.hand.tasks {
          LeftoverKeeps(w.hand.tasks, id);
        }
      case Settle => SentinelIsFunction(w.hand.tasks, id);
      case _ => assert InWork(s'.worker) == InWork(w);
    }
  }

  lemma UnderwayByStream(s: State, step: StreamStep, id: nat)
    requires Underway(s, id) && StreamEnabled(s, step)
    ensures Underway(StreamNext(s, step), id)
  {
    var s' := StreamNext(s, step);
    assert s'.worker.ran == s.worker.ran && s'.worker.hand == s.worker.hand && s.worker.queue <= s'.worker.queue;
    assert InWork(s.worker) <= InWork(s'.worker);
    if step == EnqueueSentinel(id) {
      assert s'.worker.queue[|s.worker.queue|] == Write(id);
    }
  }

  lemma UnderwayKept(s: State, step: Step, id: nat)
    requires HandInv(s.worker) && Underway(s, id) && Enabled(s, step) && step != ByProcess(Resume)
    ensures Underway(Next(s, step), id)
  {
    match step
    case ByServer(x) => assert ServerNext(s, x).worker == s.worker && ServerNext(s, x).stream == s.stream;
    case ByStream(x) => UnderwayByStream(s, x, id);
    case ByWorker(x) => UnderwayByWorker(s, x, id);
    case ByCopy(x) => assert CopyNext(s, x).worker == s.worker && CopyNext(s, x).stream == s.stream;
    case ByProcess(x) => assert ProcessNext(s, x).worker == s.worker && ProcessNext(s, x).stream == s.stream;
  }

  lemma ComingByStream(s: State, step: StreamStep, id: nat)
    requires s.stream.dispatching && Write(id) in s.stream.channel && StreamEnabled(s, step) && !step.DispatchFail?
    ensures Coming(StreamNext(s, step), id)
  {
    var s', channel := StreamNext(s, step), s.stream.channel;
    if step.Dispatch? {
      assert channel == [channel[0]] + channel[1..];
    } else {
      assert channel <= s'.stream.channel && s'.stream.dispatching;
    }
  }

  /** Neither a crash nor a failed delivery. */
  predicate Delivering(step: Step) {
    step != ByProcess(Resume) && step != ByStream(DispatchFail)
  }

  lemma ComingKept(s: State, step: Step, id: nat)
    requires HandInv(s.worker) && Coming(s, id) && Enabled(s, step) && Delivering(step)
    ensures Coming(Next(s, step), id)
  {
    if Underway(s, id) {
      UnderwayKept(s, step, id);
    } else if step.ByStream? {
      ComingByStream(s, step.stream, id);
    } else {
      assert Next(s, step).stream == s.stream;
    }
  }

  lemma {:induction false} ComingRun(s: State, steps: seq<Step>, id: nat)
    requires HandInv(s.worker) && Coming(s, id) && IsRun(s, steps)
    requires forall i | 0 <= i < |steps| :: Delivering(steps[i])
    ensures Coming(Final(s, steps), id)
    decreases |steps|
  {
    if steps != [] {
      HandKept(s, steps[0]);
      ComingKept(s, steps[0], id);
      assert forall i | 0 <= i < |steps[1..]| :: steps[1..][i] == steps[i + 1];
      ComingRun(Next(s, steps[0]), steps[1..], id);
    }
  }

  /**
   No sentinel is dropped. One that was read, and is neither waiting nor in flight any
   more, has run, in every run without a crash and without a failed delivery.
   */
  lemma NoSentinelDropped(init: Table, s: State, steps: seq<Step>, id: nat)
    requires Reaches(Start(init), s) && IsRun(s, steps) && forall i | 0 <= i < |steps| :: Delivering(steps[i])
    requires id in s.stream.waiting || Write(id) in InFlight(s)
    ensures var t := Final(s, steps); id in t.worker.ran || id in t.stream.waiting || Write(id) in InFlight(t)
  {
    var before :| IsRun(Start(init), before) && Final(Start(init), before) == s;
    HandRun(Start(init), before);
    ComingRun(s, steps, id);
  }

  // ----- the worker comes to rest

  /** The replay met no hazard, and the batch in hand can be committed carefully. */
  ghost predicate Able(s: State) {
    Inv(s) && Unharmed(s) && !RA.Stuck(s)
  }

  function HandLoad(hand: Hand): nat {
    if hand.Idle? then 0 else if hand.Settling? then 1 else 2
  }

  /** What the worker and the goroutines before it still have to do. */
  function WorkLoad(s: State): nat {
    4 * |s.stream.waiting| + 3 * |s.worker.queue| + HandLoad(s.worker.hand)
  }

  predicate WorkerRests(s: State) {
    s.worker.hand.Idle? && s.worker.queue == [] && s.stream.waiting == {}
  }

  /** A step of the replay that keeps it able. */
  ghost predicate Replaying(s: State, step: Step) {
    Enabled(s, step) && Careful(s, step) && Undisturbed(step) && Able(Next(s, step)) &&
    Next(s, step).server == s.server
  }

  lemma IsReplaying(s: State, step: Step)
    requires Able(s) && Enabled(s, step) && Careful(s, step) && Undisturbed(step) && !step.ByServer?
    requires !RA.Stuck(Next(s, step))
    ensures Replaying(s, step)
  {
    InvKept(s, step);
    CarefulStepIsUnharmed(s, step);
    ServerKept(s, step);
  }

  /** Reading on, delivering, handling and copying: no reconnect, no challenge and no failure. */
  predicate Plain(step: Step) {
    match step
    case ByStream(x) => x.ReadRow? || x.ReadXid? || x.Listen? || x.Dispatch? || x.EnqueueSentinel?
    case ByWorker(x) => true
    case ByCopy(x) => true
    case _ => false
  }

  /** Less to do for the worker, and everything else as it was. */
  predicate LessWork(s: State, t: State) {
    WorkLoad(t) < WorkLoad(s) && t.stream == s.stream.(waiting := t.stream.waiting) && t.copy == s.copy
  }

  lemma CommitIsLess(s: State)
    requires Able(s) && s.worker.hand.Holding?
    ensures Replaying(s, ByWorker(CommitBatch)) && LessWork(s, WorkerNext(s, CommitBatch))
  {
    HeldInLog(s);
    IsReplaying(s, ByWorker(CommitBatch));
  }

  lemma TakeIsLess(s: State)
    requires Able(s) && s.worker.hand.Idle? && s.worker.queue != []
    ensures Replaying(s, ByWorker(Take(0, 1))) && LessWork(s, WorkerNext(s, Take(0, 1)))
  {
    IsReplaying(s, ByWorker(Take(0, 1)));
  }

  lemma EnqueueIsLess(s: State, id: nat)
    requires Able(s) && id in s.stream.waiting
    ensures Replaying(s, ByStream(EnqueueSentinel(id))) && LessWork(s, StreamNext(s, EnqueueSentinel(id)))
  {
    IsReplaying(s, ByStream(EnqueueSentinel(id)));
  }

  /** The next step of a worker that takes one task at a time. */
  lemma WorkOne(s: State) returns (step: Step)
    requires Able(s) && !WorkerRests(s)
    ensures Replaying(s, step) && LessWork(s, Next(s, step)) && Plain(step)
  {
    if s.worker.hand.Holding? {
      step := ByWorker(CommitBatch);
      CommitIsLess(s);
    } else if s.worker.hand.Settling? {
      step := ByWorker(Settle);
      IsReplaying(s, step);
    } else if s.worker.queue != [] {
      step := ByWorker(Take(0, 1));
      TakeIsLess(s);
    } else {
      var id :| id in s.stream.waiting;
      step := ByStream(EnqueueSentinel(id));
      EnqueueIsLess(s, id);
    }
  }

  /** Whatever is with the worker gets done. */
  lemma WorkDone(s0: State, s: State, id: nat) returns (t: State)
    requires RA.Replays(s0, s) && Able(s)
    ensures RA.Replays(s0, t) && Able(t) && WorkerRests(t) && t.server == s.server
    ensures Underway(s, id) ==> id in t.worker.ran
    decreases WorkLoad(s)
  {
    if WorkerRests(s) {
      t := s;
    } else {
      var step := WorkOne(s);
      RA.ReplaysOn(s0, s, step);
      if Underway(s, id) {
        UnderwayKept(s, step, id);
      }
      t := WorkDone(s0, Next(s, step), id);
    }
  }

  // ----- how the tasks fall into batches does not matter

  /** What the worker makes of a state by handling all of `tasks`. */
  function Handled(s: State, tasks: seq<Task>): State
    requires tasks <= s.worker.queue && InLog(tasks, |s.server.log|)
  {
    var w, marker := s.worker, LastMarker(tasks);
    s.(shadow := ApplyTasks(s.shadow, s.server.log, tasks, false),
       worker := w.(queue := w.queue[|tasks|..],
                    applied := End(tasks, w.applied), high := HighEnd(tasks, w.high),
                    committed := w.committed + (set p | p in Rows(tasks)),
                    acked := if marker.Some? then marker else w.acked, floor := FloorEnd(tasks, w.floor),
                    ran := w.ran + set id | id in Writes(tasks)))
  }

  lemma {:induction false} ApplyTasksAppend(g: Table, log: seq<Change>, a: seq<Task>, b: seq<Task>)
    requires InLog(a, |log|) && InLog(b, |log|)
    ensures InLog(a + b, |log|)
    ensures ApplyTasks(g, log, a + b, false) == ApplyTasks(ApplyTasks(g, log, a, false), log, b, false)
    decreases |a|
  {
    if a == [] {
      assert a + b == b;
    } else {
      assert (a + b)[0] == a[0] && (a + b)[1..] == a[1..] + b;
      assert forall i | 0 <= i < |a[1..]| :: a[1..][i] == a[i + 1];
      ApplyTasksAppend(if a[0].Dml? then ApplyBuilt(g, log[a[0].pos], false) else g, log, a[1..], b);
    }
  }

  lemma {:induction false} RowlessApply(g: Table, log: seq<Change>, tasks: seq<Task>)
    requires InLog(tasks, |log|) && Rows(tasks) == []
    ensures ApplyTasks(g, log, tasks, false) == g
  {
    if tasks != [] {
      assert forall i | 0 <= i < |tasks[1..]| :: tasks[1..][i] == tasks[i + 1];
      RowlessApply(g, log, tasks[1..]);
    }
  }

  lemma HandledAppend(s: State, a: seq<Task>, b: seq<Task>)
    requires a + b == s.worker.queue && InLog(a, |s.server.log|) && InLog(b, |s.server.log|)
    ensures InLog(a + b, |s.server.log|) && b <= Handled(s, a).worker.queue
    ensures Handled(Handled(s, a), b) == Handled(s, a + b)
  {
    ApplyTasksAppend(s.shadow, s.server.log, a, b);
    GaplessAppend(a, b, s.worker.applied, 0);
    MarkedAppend(a, b, s.worker.high);
    RowsAppend(a, b);
    WritesAppend(a, b);
    LastMarkerAppend(a, b);
    FloorEndAppend(a, b, s.worker.floor);
    assert Handled(s, a).worker.queue == b;
  }

  /** What is left of a batch once its rows are committed has its marker and its function. */
  lemma LeftoverIs(tasks: seq<Task>)
    requires FunctionLast(tasks)
    ensures LastMarker(Leftover(tasks)) == LastMarker(tasks) && Writes(Leftover(tasks)) == Writes(tasks)
  {
    LeftoverMarker(tasks);
    OneFunction(tasks);
    var m := if LastMarker(tasks).Some? then [Complete(LastMarker(tasks).value)] else [];
    var w := if Writes(tasks) != [] then [Write(Writes(tasks)[0])] else [];
    assert m != [] ==> m[1..] == [];
    assert w != [] ==> w[1..] == [];
    WritesAppend(m, w);
  }

  /** How the worker found the queue whenever it took a batch. */
  function LooksOf(steps: seq<Step>): seq<Look> {
    if steps == [] then []
    else if steps[0].ByWorker? && steps[0].worker.Take? then
      [Look(steps[0].worker.available, steps[0].worker.size)] + LooksOf(steps[1..])
    else LooksOf(steps[1..])
  }

  lemma {:induction false} LooksAppend(a: seq<Step>, b: seq<Step>)
    ensures LooksOf(a + b) == LooksOf(a) + LooksOf(b)
  {
    if a == [] {
      assert a + b == b;
    } else {
      assert (a + b)[0] == a[0] && (a + b)[1..] == a[1..] + b;
      LooksAppend(a[1..], b);
    }
  }

  lemma {:induction false} CarefulThen(s: State, a: seq<Step>, b: seq<Step>)
    requires IsRun(s, a) && CarefulRun(s, a) && IsRun(Final(s, a), b) && CarefulRun(Final(s, a), b)
    ensures IsRun(s, a + b) && CarefulRun(s, a + b) && Final(s, a + b) == Final(Final(s, a), b)
    decreases |a|
  {
    if a == [] {
      assert a + b == b;
    } else {
      assert (a + b)[0] == a[0] && (a + b)[1..] == a[1..] + b;
      CarefulThen(Next(s, a[0]), a[1..], b);
    }
  }

  /**
   However the queue falls into batches, the worker can take it so, and always ends with
   the same ghost, the same acknowledged coordinate and the same sentinels run.
   */
  lemma {:induction false} BatchingDoesNotMatter(s: State, looks: seq<Look>) returns (steps: seq<Step>)
    requires s.worker.hand.Idle? && InLog(s.worker.queue, |s.server.log|) && Drains(s.worker.queue, looks)
    ensures IsRun(s, steps) && CarefulRun(s, steps) && (forall i | 0 <= i < |steps| :: Undisturbed(steps[i]))
    ensures LooksOf(steps) == looks && Final(s, steps) == Handled(s, s.worker.queue)
    decreases |s.worker.queue|
  {
    var queue := s.worker.queue;
    if queue == [] {
      steps := [];
      assert LastMarker([]) == None && Handled(s, []) == s;
    } else {
      var first := BatchIsHandled(s, looks[0].available, looks[0].size);
      var tasks := Batch(queue, looks[0].available, looks[0].size);
      var rest := queue[|tasks|..];
      assert queue == tasks + rest && forall i | 0 <= i < |rest| :: rest[i] == queue[|tasks| + i];
      HandledAppend(s, tasks, rest);
      var more := BatchingDoesNotMatter(Handled(s, tasks), looks[1..]);
      CarefulThen(s, first, more);
      LooksAppend(first, more);
      steps := first + more;
    }
  }

  lemma LooksOfTake(take: WorkerStep, rest: seq<Step>)
    requires take.Take? && |rest| <= 2 && forall i | 0 <= i < |rest| :: rest[i].ByWorker? && !rest[i].worker.Take?
    ensures LooksOf([ByWorker(take)] + rest) == [Look(take.available, take.size)]
  {
    assert ([ByWorker(take)] + rest)[1..] == rest;
    if |rest| == 2 {
      assert LooksOf(rest[1..]) == LooksOf(rest[1..][1..]);
    }
    assert LooksOf(rest) == [];
  }

  /** Rows that are taken, committed and settled are handled. */
  lemma RowsAreHandled(s: State, available: nat, size: nat)
    requires s.worker.hand.Idle? && available < |s.worker.queue| && size >= 1 && s.worker.queue[0].Dml?
    requires InLog(s.worker.queue, |s.server.log|)
    ensures var tasks, taken := Batch(s.worker.queue, available, size), WorkerNext(s, Take(available, size));
            && InLog(tasks, |s.server.log|) && WorkerEnabled(taken, CommitBatch) &&
               Careful(taken, ByWorker(CommitBatch))
            && WorkerNext(taken, CommitBatch).worker.hand.Settling?
            && DoSettle(WorkerNext(taken, CommitBatch)) == Handled(s, tasks)
  {
    var tasks := Batch(s.worker.queue, available, size);
    assert forall i | 0 <= i < |tasks| :: tasks[i] == s.worker.queue[i];
    BatchFunctionLast(s.worker.queue, available, size);
    LeftoverIs(tasks);
  }

  /** A marker or a function that is taken and settled is handled. */
  lemma OtherIsHandled(s: State, available: nat, size: nat)
    requires s.worker.hand.Idle? && available < |s.worker.queue| && size >= 1 && !s.worker.queue[0].Dml?
    ensures var tasks, taken := Batch(s.worker.queue, available, size), WorkerNext(s, Take(available, size));
            && InLog(tasks, |s.server.log|) && taken.worker.hand.Settling? && DoSettle(taken) == Handled(s, tasks)
  {
    var tasks := Batch(s.worker.queue, available, size);
    assert tasks == [s.worker.queue[0]] && Rows(tasks) == [];
    RowlessApply(s.shadow, s.server.log, tasks);
    RowlessEnds(tasks, s.worker.applied, s.worker.high);
  }

  /** A batch that is taken, committed and settled is handled. */
  lemma BatchIsHandled(s: State, available: nat, size: nat) returns (steps: seq<Step>)
    requires s.worker.hand.Idle? && available < |s.worker.queue| && size >= 1
    requires InLog(s.worker.queue, |s.server.log|)
    ensures var tasks := Batch(s.worker.queue, available, size);
            && InLog(tasks, |s.server.log|) && IsRun(s, steps) && Final(s, steps) == Handled(s, tasks)
            && CarefulRun(s, steps) && (forall i | 0 <= i < |steps| :: Undisturbed(steps[i]))
            && LooksOf(steps) == [Look(available, size)]
  {
    var take, rest := Take(available, size), [ByWorker(Settle)];
    var taken := WorkerNext(s, take);
    if s.worker.queue[0].Dml? {
      RowsAreHandled(s, available, size);
      rest := [ByWorker(CommitBatch), ByWorker(Settle)];
      TwoThen(taken, ByWorker(CommitBatch), ByWorker(Settle));
    } else {
      OtherIsHandled(s, available, size);
      assert rest == [ByWorker(Settle)] + [];
      OneThen(taken, ByWorker(Settle), []);
    }
    OneThen(s, ByWorker(take), rest);
    LooksOfTake(take, rest);
    steps := [ByWorker(take)] + rest;
  }

  lemma OneThen(s: State, step: Step, rest: seq<Step>)
    requires Enabled(s, step) && Careful(s, step) && IsRun(Next(s, step), rest) && CarefulRun(Next(s, step), rest)
    ensures IsRun(s, [step] + rest) && CarefulRun(s, [step] + rest)
    ensures Final(s, [step] + rest) == Final(Next(s, step), rest)
  {
    assert ([step] + rest)[1..] == rest;
  }

  lemma TwoThen(s: State, a: Step, b: Step)
    requires Enabled(s, a) && Careful(s, a) && Enabled(Next(s, a), b) && Careful(Next(s, a), b)
    ensures IsRun(s, [a, b]) && CarefulRun(s, [a, b]) && Final(s, [a, b]) == Next(Next(s, a), b)
  {
    var t := Next(Next(s, a), b);
    assert IsRun(t, []) && CarefulRun(t, []) && Final(t, []) == t;
    OneThen(Next(s, a), b, []);
    OneThen(s, a, [b] + []);
    assert [a] + ([b] + []) == [a, b];
  }

  // ----- the whole replay comes to rest

  /** Everything logged was read and handled, and the row copy is over. */
  predicate AtRest(s: State) {
    && s.stream.listening && s.stream.dispatching && s.stream.channel == [] && WorkerRests(s)
    && s.stream.next == s.stream.since == |s.server.log| && s.copy.finished
  }

  function CopyLeft(c: Copy): nat {
    if c.finished then 0
    else if c.range.None? then 3
    else if c.range.value.NoRows? || c.copiedTo == Some(c.range.value.max) then 1
    else 2
  }

  function Load(s: State): nat {
    8 * |s.stream.channel| + WorkLoad(s)
  }

  /** Nearer to rest. */
  predicate Further(s: State, t: State) {
    var a, b := s.stream, t.stream;
    && t.server == s.server && b.dispatching && (s.copy.copiedTo.Some? ==> t.copy.copiedTo.Some?)
    && (|| (b.listening && !a.listening)
        || (b.listening == a.listening && b.next > a.next)
        || (b.listening == a.listening && b.next == a.next && b.since > a.since)
        || (b.listening == a.listening && b.next == a.next && b.since == a.since && CopyLeft(t.copy) < CopyLeft(s.copy))
        || (b.listening == a.listening && b.next == a.next && b.since == a.since && t.copy == s.copy &&
            Load(t) < Load(s)))
  }

  lemma LeqTotal(a: Key, b: Key)
    ensures Leq(a, b) || Leq(b, a)
  {
    LessTotal(a, b);
  }

  /** The least and the greatest key of a table. */
  lemma {:induction false} RangeOf(t: Table, keys: set<Key>) returns (range: Range)
    requires keys <= t.Keys
    ensures range.NoRows? <==> keys == {}
    ensures range.Bounds? ==> forall k | k in keys :: Leq(range.min, k) && Leq(k, range.max)
    decreases |keys|
  {
    if keys == {} {
      range := NoRows;
    } else {
      var k :| k in keys;
      var rest := RangeOf(t, keys - {k});
      if rest.NoRows? {
        assert keys == {k};
        range := Bounds(k, k);
      } else {
        range := Bounds(if Leq(rest.min, k) then rest.min else k, if Leq(k, rest.max) then rest.max else k);
        LeqTotal(rest.min, k);
        LeqTotal(k, rest.max);
        forall x | x in keys ensures Leq(range.min, x) && Leq(x, range.max) {
          if x != k {
            LeqTransitive(range.min, rest.min, x);
            LeqTransitive(x, rest.max, range.max);
          }
        }
      }
    }
  }

  /** The next step of the row copy: it reads its range, copies all of it at once, and finds nothing left. */
  lemma CopyOne(s: State) returns (step: CopyStep)
    requires s.stream.listening && s.worker.hand.Idle? && !s.copy.finished
    ensures CopyEnabled(s, step) && CopyLeft(CopyNext(s, step).copy) < CopyLeft(s.copy)
    ensures s.copy.copiedTo.Some? ==> CopyNext(s, step).copy.copiedTo.Some?
  {
    var c := s.copy;
    if c.range.None? {
      var range := RangeOf(Current(s.server), Current(s.server).Keys);
      assert IsRange(Current(s.server), range);
      step := ReadRange(range);
    } else if CopyLeft(c) == 1 {
      if c.range.value.Bounds? {
        forall k ensures !Between(c.range.value.max, false, c.range.value.max, k) {
          NotLeqIsGreater(k, c.range.value.max);
        }
      }
      step := FinishCopy(None);
    } else {
      step := CopyChunk(c.range.value.max, false);
    }
  }

  lemma CopyFurther(s: State) returns (step: Step)
    requires Able(s) && s.stream.dispatching && s.stream.listening && WorkerRests(s) && !s.copy.finished
    ensures Replaying(s, step) && Further(s, Next(s, step)) && Plain(step)
  {
    var x := CopyOne(s);
    step := ByCopy(x);
    assert CopyNext(s, x).worker == s.worker && CopyNext(s, x).stream == s.stream;
    IsReplaying(s, step);
  }

  lemma DispatchIsLess(s: State)
    requires s.stream.dispatching && s.stream.listening && s.stream.channel != []
    ensures Load(DoDispatch(s)) < Load(s) && DoDispatch(s).worker.hand == s.worker.hand
  {
    var t := s.stream.channel[0];
    if t.Write? && t.id in s.stream.waiting {
      assert s.stream.waiting + {t.id} == s.stream.waiting;
    }
  }

  lemma DispatchFurther(s: State)
    requires Able(s) && s.stream.dispatching && s.stream.listening && WorkerRests(s) && s.stream.channel != []
    ensures Replaying(s, ByStream(Dispatch)) && Further(s, StreamNext(s, Dispatch))
  {
    DispatchIsLess(s);
    IsReplaying(s, ByStream(Dispatch));
  }

  lemma XidFurther(s: State)
    requires Able(s) && s.stream.dispatching && s.stream.listening && StreamEnabled(s, ReadXid)
    ensures Replaying(s, ByStream(ReadXid)) && Further(s, StreamNext(s, ReadXid))
  {
    IsReplaying(s, ByStream(ReadXid));
  }

  lemma RowFurther(s: State)
    requires Able(s) && s.stream.dispatching && s.stream.listening && !StreamEnabled(s, ReadXid)
    requires s.stream.since < |s.server.log|
    ensures Replaying(s, ByStream(ReadRow)) && Further(s, StreamNext(s, ReadRow))
  {
    IsReplaying(s, ByStream(ReadRow));
  }

  /** The next step of a replay that comes to rest. */
  lemma OneFurther(s: State) returns (step: Step)
    requires Able(s) && s.stream.dispatching && !AtRest(s)
    ensures Replaying(s, step) && Further(s, Next(s, step)) && Plain(step)
    ensures s.stream.listening || step == ByStream(Listen)
  {
    if !s.stream.listening {
      step := ByStream(Listen);
      IsReplaying(s, step);
    } else if !WorkerRests(s) {
      step := WorkOne(s);
    } else if s.stream.channel != [] {
      step := ByStream(Dispatch);
      DispatchFurther(s);
    } else if StreamEnabled(s, ReadXid) {
      step := ByStream(ReadXid);
      XidFurther(s);
    } else if s.stream.since < |s.server.log| {
      step := ByStream(ReadRow);
      RowFurther(s);
    } else {
      step := CopyFurther(s);
    }
  }

  // ----- every transaction with a row still to be read is acknowledged

  /** The end of the log is acknowledged, or its marker is on its way or still to be sent. */
  predicate MarkDue(s: State) {
    var n := |s.server.log|;
    || s.worker.acked == Some(n) || LastMarker(InFlight(s)) == Some(n)
    || (s.stream.since < n && (s.stream.next < n || s.stream.hasRows))
  }

  /** What is acknowledged at the end of the log stays so. */
  lemma SettledMark(s: State)
    requires Inv(s) && Unharmed(s) && s.worker.hand.Settling? && s.worker.acked == Some(|s.server.log|)
    ensures DoSettle(s).worker.acked == Some(|s.server.log|)
  {
    var w := s.worker;
    var held, behind := w.hand.tasks, w.queue + if s.stream.dispatching then s.stream.channel else [];
    assert InFlight(s) == held + behind;
    OrderedAppend(held, behind, w.floor, w.applied, s.server.challenges);
    OrderedEnds(held, w.floor, w.applied, s.server.challenges);
    GaplessAppend(held, behind, w.applied, |s.server.log|);
    GaplessBounded(held, w.applied, |s.server.log|);
  }

  lemma MarkByCommit(s: State)
    requires s.worker.hand.Holding? && InLog(s.worker.hand.tasks, |s.server.log|)
    requires s.stream.dispatching && MarkDue(s)
    ensures MarkDue(DoCommitBatch(s))
  {
    var held, behind, t := s.worker.hand.tasks, s.worker.queue + s.stream.channel, DoCommitBatch(s);
    assert t.worker.hand == Settling(Leftover(held)) && t.worker.queue == s.worker.queue && t.stream == s.stream;
    assert InFlight(s) == held + behind && InFlight(t) == Leftover(held) + behind;
    LeftoverMarker(held);
    LastMarkerAppend(held, behind);
    LastMarkerAppend(Leftover(held), behind);
  }

  lemma MarkBySettling(s: State)
    requires Inv(s) && Unharmed(s) && s.stream.dispatching && MarkDue(s) && s.worker.hand.Settling?
    ensures MarkDue(DoSettle(s))
  {
    var held, behind := s.worker.hand.tasks, s.worker.queue + s.stream.channel;
    assert InFlight(s) == held + behind && InFlight(DoSettle(s)) == behind;
    LastMarkerAppend(held, behind);
    if s.worker.acked == Some(|s.server.log|) {
      SettledMark(s);
    }
  }

  lemma MarkByWorker(s: State, step: WorkerStep)
    requires Inv(s) && Unharmed(s) && s.stream.dispatching && MarkDue(s) && WorkerEnabled(s, step)
    ensures MarkDue(WorkerNext(s, step))
  {
    var s' := WorkerNext(s, step);
    match step
    case Take(available, size) => TakeFlow(s, available, size);
    case CommitBatch => MarkByCommit(s);
    case Settle => MarkBySettling(s);
    case _ => assert InFlight(s') == InFlight(s);
  }

  /** Sentinels hide no marker. */
  lemma MarkAround(a: seq<Task>, id: nat, b: seq<Task>)
    ensures LastMarker(a + [Write(id)] + b) == LastMarker(a + b)
  {
    assert [Write(id)][1..] == [] && LastMarker([Write(id)][1..]) == None;
    LastMarkerAppend(a + [Write(id)], b);
    LastMarkerAppend(a, [Write(id)]);
    LastMarkerAppend(a, b);
  }

  lemma MarkByMoving(s: State, step: StreamStep)
    requires s.stream.dispatching && s.stream.listening && MarkDue(s) && StreamEnabled(s, step)
    requires step.Dispatch? || step.EnqueueSentinel?
    ensures MarkDue(StreamNext(s, step))
  {
    var s' := StreamNext(s, step);
    if step.Dispatch? {
      DispatchFlow(s);
      var t := s.stream.channel[0];
      if t.Write? {
        MarkAround(InWork(s.worker), t.id, s.stream.channel[1..]);
        assert InWork(s.worker) + [] + s.stream.channel[1..] == InWork(s.worker) + s.stream.channel[1..];
      }
    } else {
      assert InWork(s'.worker) == InWork(s.worker) + [Write(step.id)];
      MarkAround(InWork(s.worker), step.id, s.stream.channel);
    }
  }

  lemma MarkByReading(s: State, step: StreamStep)
    requires Inv(s) && Unharmed(s) && s.stream.dispatching && s.stream.listening && MarkDue(s) && StreamEnabled(s, step)
    requires step.ReadRow? || step.ReadXid?
    ensures MarkDue(StreamNext(s, step))
  {
    var s' := StreamNext(s, step);
    if Sends(s, step) {
      var t := s'.stream.channel[|s.stream.channel|];
      AppendFlow(s, s', t);
      assert [t][1..] == [] && LastMarker([t][1..]) == None;
      LastMarkerAppend(InFlight(s), [t]);
    }
  }

  lemma MarkKept(s: State, step: Step)
    requires Able(s) && s.stream.dispatching && MarkDue(s) && Replaying(s, step) && Plain(step)
    requires s.stream.listening || step == ByStream(Listen)
    ensures MarkDue(Next(s, step))
  {
    match step
    case ByWorker(x) => MarkByWorker(s, x);
    case ByStream(x) =>
      if x.ReadRow? || x.ReadXid? {
        MarkByReading(s, x);
      } else if !x.Listen? {
        MarkByMoving(s, x);
      }
    case ByCopy(x) => assert CopyNext(s, x).worker == s.worker && CopyNext(s, x).stream == s.stream;
    case _ =>
  }

  lemma ComesToRest(s0: State, s: State) returns (t: State)
    requires RA.Replays(s0, s) && Able(s) && s.stream.dispatching
    ensures RA.Replays(s0, t) && Able(t) && AtRest(t) && t.server == s.server
    ensures s.copy.copiedTo.Some? ==> t.copy.copiedTo.Some?
    ensures MarkDue(s) ==> t.worker.acked == Some(|t.server.log|)
    decreases !s.stream.listening, |s.server.log| - s.stream.next, |s.server.log| - s.stream.since, CopyLeft(s.copy),
              Load(s)
  {
    if AtRest(s) {
      t := s;
      assert InFlight(s) == [];
    } else {
      var step := OneFurther(s);
      RA.ReplaysOn(s0, s, step);
      if MarkDue(s) {
        MarkKept(s, step);
      }
      t := ComesToRest(s0, Next(s, step));
    }
  }

  // ----- what stands in the way

  lemma {:induction false} SameOnLongerLog(g: Table, log: seq<Change>, more: seq<Change>, tasks: seq<Task>,
                                           rebuilt: bool)
    requires InLog(tasks, |log|)
    ensures InLog(tasks, |log + more|)
    ensures ApplyTasks(g, log + more, tasks, rebuilt) == ApplyTasks(g, log, tasks, rebuilt)
    decreases |tasks|
  {
    if tasks != [] {
      assert forall i | 0 <= i < |tasks[1..]| :: tasks[1..][i] == tasks[i + 1];
      if tasks[0].Dml? {
        SameOnLongerLog(ApplyBuilt(g, log[tasks[0].pos], rebuilt), log, more, tasks[1..], rebuilt);
      } else {
        SameOnLongerLog(g, log, more, tasks[1..], rebuilt);
      }
    }
  }

  lemma StuckSame(s: State, t: State, more: seq<Change>)
    requires RA.Stuck(s) && t.worker.hand == s.worker.hand && t.shadow == s.shadow
    requires t.server.log == s.server.log + more
    ensures RA.Stuck(t)
  {
    SameOnLongerLog(s.shadow, s.server.log, more, s.worker.hand.tasks, true);
    SameOnLongerLog(s.shadow, s.server.log, more, s.worker.hand.tasks, false);
  }

  lemma StuckWorker(s: State, step: WorkerStep)
    requires RA.Stuck(s) && WorkerEnabled(s, step) && Careful(s, ByWorker(step))
    ensures WorkerNext(s, step) == s
  {
  }

  /** A batch that cannot be retried carefully stays in hand, whatever is committed meanwhile. */
  lemma StuckKept(s: State, step: Step)
    requires RA.Stuck(s) && Enabled(s, step) && Careful(s, step) && step != ByProcess(Resume)
    ensures RA.Stuck(Next(s, step)) && Next(s, step).worker.hand == s.worker.hand
    ensures Next(s, step).worker.ran == s.worker.ran
  {
    var t := Next(s, step);
    assert s.server.log + [] == s.server.log;
    match step
    case ByServer(x) => StuckSame(s, t, if x.CommitChanges? then x.changes else []);
    case ByStream(x) =>
      assert t.worker.hand == s.worker.hand && t.worker.ran == s.worker.ran && t.shadow == s.shadow;
      StuckSame(s, t, []);
    case ByWorker(x) => StuckWorker(s, x);
    case ByCopy(x) =>
      assert t.worker == s.worker && t.shadow == s.shadow;
      StuckSame(s, t, []);
    case ByProcess(x) =>
      assert t.worker == s.worker && t.shadow == s.shadow;
      StuckSame(s, t, []);
  }

  /** Without a dispatcher, a sentinel that has not reached the worker does not. */
  lemma CutOffKept(s: State, step: Step, id: nat)
    requires !s.stream.dispatching && !Underway(s, id) && Enabled(s, step) && step != ByProcess(Resume)
    ensures !Next(s, step).stream.dispatching && !Underway(Next(s, step), id)
  {
    match step
    case ByServer(x) => assert ServerNext(s, x).worker == s.worker && ServerNext(s, x).stream == s.stream;
    case ByStream(x) => CutOffByStream(s, x, id);
    case ByWorker(x) => CutOffByWorker(s, x, id);
    case ByCopy(x) => assert CopyNext(s, x).worker == s.worker && CopyNext(s, x).stream == s.stream;
    case ByProcess(x) => assert ProcessNext(s, x).worker == s.worker && ProcessNext(s, x).stream == s.stream;
  }

  lemma CutOffByStream(s: State, step: StreamStep, id: nat)
    requires !s.stream.dispatching && !Underway(s, id) && StreamEnabled(s, step)
    ensures !StreamNext(s, step).stream.dispatching && !Underway(StreamNext(s, step), id)
  {
    var s' := StreamNext(s, step);
    assert s'.worker.ran == s.worker.ran && s'.stream.waiting <= s.stream.waiting;
    assert InWork(s'.worker) == InWork(s.worker) + if step.EnqueueSentinel? then [Write(step.id)] else [];
  }

  lemma CutOffByWorker(s: State, step: WorkerStep, id: nat)
    requires !Underway(s, id) && WorkerEnabled(s, step)
    ensures !Underway(WorkerNext(s, step), id) && WorkerNext(s, step).stream == s.stream
  {
    var w, s' := s.worker, WorkerNext(s, step);
    match step
    case Take(available, size) => TakeFlow(s, available, size);
    case CommitBatch =>
      assert Write(id) !in w.hand.tasks;
      SentinelIsFunction(w.hand.tasks, id);
      assert InWork(s'.worker) == Leftover(w.hand.tasks) + w.queue;
    case Settle =>
      assert Write(id) !in w.hand.tasks;
      SentinelIsFunction(w.hand.tasks, id);
      assert InWork(s'.worker) == w.queue;
    case _ => assert InWork(s'.worker) == InWork(w);
  }

  /** Nothing more of the replay will get done, or the sentinel will never run. */
  predicate Barred(s: State, id: nat) {
    id !in s.worker.ran && (RA.Stuck(s) || (!s.stream.dispatching && !Underway(s, id)))
  }

  lemma BarredKept(s: State, step: Step, id: nat)
    requires Barred(s, id) && Enabled(s, step) && Careful(s, step) && step != ByProcess(Resume)
    ensures Barred(Next(s, step), id)
  {
    if RA.Stuck(s) {
      StuckKept(s, step);
    } else {
      CutOffKept(s, step, id);
    }
  }

  lemma {:induction false} BarredRun(s: State, steps: seq<Step>, id: nat)
    requires Barred(s, id) && IsRun(s, steps) && CarefulRun(s, steps)
    requires forall i | 0 <= i < |steps| :: Undisturbed(steps[i])
    ensures Barred(Final(s, steps), id)
    decreases |steps|
  {
    if steps != [] {
      BarredKept(s, steps[0], id);
      assert forall i | 0 <= i < |steps[1..]| :: steps[1..][i] == steps[i + 1];
      BarredRun(Next(s, steps[0]), steps[1..], id);
    }
  }

  // ----- whether a challenge can be answered

  ghost predicate CanAnswer(s: State, id: nat) {
    exists t :: RA.Replays(s, t) && id in t.worker.ran
  }

  /** At rest, a challenge is read, dispatched and taken. */
  lemma ReadsChallenge(s0: State, s: State, id: nat) returns (t: State)
    requires RA.Replays(s0, s) && Able(s) && AtRest(s) && id in s.server.challenges
    ensures RA.Replays(s0, t) && Able(t) && Underway(t, id) && t.server == s.server
  {
    IsReplaying(s, ByStream(ReadChallenge(id)));
    RA.ReplaysOn(s0, s, ByStream(ReadChallenge(id)));
    t := StreamNext(s, ReadChallenge(id));
    IsReplaying(t, ByStream(Dispatch));
    RA.ReplaysOn(s0, t, ByStream(Dispatch));
    t := StreamNext(t, Dispatch);
  }

  lemma Answers(s0: State, s: State, id: nat) returns (t: State)
    requires RA.Replays(s0, s) && Able(s) && id in s.server.challenges && (s.stream.dispatching || Underway(s, id))
    ensures RA.Replays(s0, t) && id in t.worker.ran && t.server == s.server
  {
    t := s;
    if !Underway(s, id) {
      t := ComesToRest(s0, t);
      t := ReadsChallenge(s0, t, id);
    }
    t := WorkDone(s0, t, id);
  }

  lemma AnsweredExactly(s: State, id: nat)
    requires Inv(s) && Unharmed(s) && id in s.server.challenges
    ensures CanAnswer(s, id) <==> !Barred(s, id)
  {
    RA.ReplaysNowhere(s);
    if id in s.worker.ran {
    } else if Barred(s, id) {
      forall t | RA.Replays(s, t) ensures id !in t.worker.ran {
        var steps :|
          && IsRun(s, steps) && CarefulRun(s, steps) && (forall i | 0 <= i < |steps| :: Undisturbed(steps[i]))
          && Final(s, steps) == t;
        BarredRun(s, steps, id);
      }
    } else {
      var t := Answers(s, s, id);
    }
  }

  /**
   From every state that met no hazard, a challenge in the log can be answered without a
   write to the original and without a crash if and only if it was, or the batch in hand
   can be committed and the dispatcher runs or has passed the sentinel on.
   */
  lemma AnsweredExactlyWhen(init: Table, s: State, id: nat)
    requires Reaches(Start(init), s) && Unharmed(s) && id in s.server.challenges
    ensures CanAnswer(s, id) <==>
            id in s.worker.ran || (!RA.Stuck(s) && (s.stream.dispatching || Underway(s, id)))
  {
    InvReached(init, s);
    AnsweredExactly(s, id);
  }

  // ----- whether the ghost can catch up

  ghost predicate CanBeQuiet(s: State) {
    exists t :: RA.Replays(s, t) && Quiet(t)
  }

  lemma {:induction false} NeverQuiet(s: State, steps: seq<Step>)
    requires RA.Stuck(s) || !s.stream.dispatching
    requires IsRun(s, steps) && CarefulRun(s, steps) && forall i | 0 <= i < |steps| :: Undisturbed(steps[i])
    ensures RA.Stuck(Final(s, steps)) || !Final(s, steps).stream.dispatching
    decreases |steps|
  {
    if steps != [] {
      if RA.Stuck(s) {
        StuckKept(s, steps[0]);
      } else {
        DispatchKept(s, steps[0]);
      }
      assert forall i | 0 <= i < |steps[1..]| :: steps[1..][i] == steps[i + 1];
      NeverQuiet(Next(s, steps[0]), steps[1..]);
    }
  }

  /** A dispatcher that has stopped does not come back. */
  lemma DispatchKept(s: State, step: Step)
    requires !s.stream.dispatching && Enabled(s, step) && step != ByProcess(Resume)
    ensures !Next(s, step).stream.dispatching
  {
    match step
    case ByServer(x) => assert ServerNext(s, x).stream == s.stream;
    case ByStream(x) =>
    case ByWorker(x) => assert WorkerNext(s, x).stream == s.stream;
    case ByCopy(x) => assert CopyNext(s, x).stream == s.stream;
    case ByProcess(x) => assert ProcessNext(s, x).stream == s.stream;
  }

  /** A batch in hand is in flight. */
  lemma HeldIsInFlight(s: State)
    requires Inv(s) && !s.lost && s.worker.hand.Holding?
    ensures Rows(InFlight(s)) != []
  {
    if Rows(InFlight(s)) == [] {
      RowlessHand(s);
      RowsAppend(InWork(s.worker), if s.stream.dispatching then s.stream.channel else []);
      RowsAppend(s.worker.hand.tasks, s.worker.queue);
    }
  }

  /**
   From every state that met no hazard, the migration can become quiet without a further
   write and without a crash if and only if the dispatcher runs and the batch in hand can
   be committed. The ghost then equals the original.
   */
  lemma QuietExactlyWhen(init: Table, s: State)
    requires Reaches(Start(init), s) && Unharmed(s)
    ensures CanBeQuiet(s) <==> s.stream.dispatching && !RA.Stuck(s)
  {
    InvReached(init, s);
    RA.ReplaysNowhere(s);
    if s.stream.dispatching && !RA.Stuck(s) {
      var t := ComesToRest(s, s);
      assert InFlight(t) == [];
    } else {
      forall t | RA.Replays(s, t) ensures !Quiet(t) {
        var steps :|
          && IsRun(s, steps) && CarefulRun(s, steps) && (forall i | 0 <= i < |steps| :: Undisturbed(steps[i]))
          && Final(s, steps) == t;
        NeverQuiet(s, steps);
        CarefulRunsAreUnharmed(s, steps);
        if RA.Stuck(t) {
          HeldIsInFlight(t);
        }
      }
    }
  }

  /**
   It can catch up with the original, acknowledge the last transaction and store a
   checkpoint of it, provided that a row of that transaction is still to be read, or its
   marker to be handled.
   */
  lemma CatchesUp(init: Table, s: State) returns (t: State)
    requires Reaches(Start(init), s) && Unharmed(s) && s.stream.dispatching && !RA.Stuck(s)
    ensures RA.Replays(s, t) && Quiet(t) && t.server == s.server && t.shadow == Current(s.server)
    ensures Unharmed(t) && t.worker.hand.Idle?
    ensures MarkDue(s) ==> t.worker.acked == Some(|s.server.log|)
    ensures MarkDue(s) && s.copy.copiedTo.Some? ==>
              t.copy.copiedTo.Some? && t.stored == Some(Checkpoint(|s.server.log|, t.copy.copiedTo.value))
  {
    InvReached(init, s);
    RA.ReplaysNowhere(s);
    t := ComesToRest(s, s);
    assert InFlight(t) == [];
    RowlessHand(t);
    CaughtUp(t);
    if MarkDue(s) && s.copy.copiedTo.Some? {
      RA.ReplaysOn(s, t, ByProcess(SampleCheckpoint));
      t := ProcessNext(t, SampleCheckpoint);
      RA.ReplaysOn(s, t, ByProcess(StoreCheckpoint));
      t := ProcessNext(t, StoreCheckpoint);
      assert InFlight(t) == [];
    }
  }

  // ----- a checkpoint is not older than its chunk

  /** Neither another sample nor a crash. */
  predicate KeepsSample(step: Step) {
    step != ByProcess(SampleCheckpoint) && step != ByProcess(Resume)
  }

  lemma SampleKept(s: State, step: Step)
    requires Enabled(s, step) && KeepsSample(step)
    ensures Next(s, step).sampled == s.sampled
  {
    match step
    case ByServer(x) => assert ServerNext(s, x).sampled == s.sampled;
    case ByStream(x) => assert StreamNext(s, x).sampled == s.sampled;
    case ByWorker(x) => assert WorkerNext(s, x).sampled == s.sampled;
    case ByCopy(x) => assert CopyNext(s, x).sampled == s.sampled;
    case ByProcess(x) =>
  }

  lemma {:induction false} SampleRun(s: State, steps: seq<Step>)
    requires IsRun(s, steps) && forall i | 0 <= i < |steps| :: KeepsSample(steps[i])
    ensures Final(s, steps).sampled == s.sampled
    decreases |steps|
  {
    if steps != [] {
      SampleKept(s, steps[0]);
      assert forall i | 0 <= i < |steps[1..]| :: steps[1..][i] == steps[i + 1];
      SampleRun(Next(s, steps[0]), steps[1..]);
    }
  }

  lemma InvAfterSample(init: Table, s: State, steps: seq<Step>)
    requires Reaches(Start(init), s) && ProcessEnabled(s, SampleCheckpoint)
    requires IsRun(ProcessNext(s, SampleCheckpoint), steps)
    ensures Inv(Final(ProcessNext(s, SampleCheckpoint), steps))
  {
    InvReached(init, s);
    InvKept(s, ByProcess(SampleCheckpoint));
    InvRun(ProcessNext(s, SampleCheckpoint), steps);
  }

  /**
   Whatever happens between taking a chunk's end and storing the checkpoint, what is
   stored is that end, and a coordinate not behind what had been read when it was taken;
   every captured change up to there is on the ghost.
   */
  lemma CheckpointIsRecent(init: Table, s: State, steps: seq<Step>, p: nat)
    requires Reaches(Start(init), s) && ProcessEnabled(s, SampleCheckpoint)
    requires IsRun(ProcessNext(s, SampleCheckpoint), steps) && forall i | 0 <= i < |steps| :: KeepsSample(steps[i])
    requires ProcessEnabled(Final(ProcessNext(s, SampleCheckpoint), steps), StoreCheckpoint)
    ensures var t := Final(ProcessNext(s, SampleCheckpoint), steps);
            var stored := ProcessNext(t, StoreCheckpoint).stored.value;
            && stored.copiedTo == s.copy.copiedTo.value && s.stream.next <= stored.coord
            && (!t.lost && t.worker.captured <= p < stored.coord ==> p in t.worker.committed)
  {
    InvAfterSample(init, s, steps);
    SampleRun(ProcessNext(s, SampleCheckpoint), steps);
  }
}
