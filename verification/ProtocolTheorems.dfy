/** What holds of every run of the migration, and where it fails. */
module ProtocolTheorems {
  import opened Wrappers
  import opened Keys
  import opened Replay
  import opened Batching
  import opened Flow
  import opened Protocol
  import opened ProtocolProof

  ghost predicate Reaches(s: State, s': State) {
    exists steps :: IsRun(s, steps) && Final(s, steps) == s'
  }

  lemma InvReached(init: Table, s: State)
    requires Reaches(Start(init), s)
    ensures Inv(s)
  {
    var steps :| IsRun(Start(init), steps) && Final(Start(init), steps) == s;
    InvStart(init);
    InvRun(Start(init), steps);
  }

  /** The row copy is over and nothing captured is still on its way to the ghost. */
  predicate Quiet(s: State) {
    && s.copy.finished && s.stream.dispatching
    && s.stream.next == |s.server.log| && Rows(InFlight(s)) == []
  }

  lemma CaughtUp(s: State)
    requires KeysInv(s) && s.copy.finished && Low(s.worker) == |s.server.log|
    ensures s.shadow == Current(s.server)
  {
    forall k ensures Lookup(s.shadow, k) == Lookup(Current(s.server), k) {
      assert KeyOk(s.server.init, s.server.log, Low(s.worker), s.shadow, Secured(s, k), k);
    }
    SameTable(s.shadow, Current(s.server));
  }

  /** Without rows in flight there is no batch in hand. */
  lemma RowlessHand(s: State)
    requires HeardInv(s) && Rows(InFlight(s)) == []
    ensures Low(s.worker) == s.worker.applied == End(InFlight(s), s.worker.applied)
  {
    var w := s.worker;
    RowlessEnds(InFlight(s), w.applied, 0);
    RowsAppend(InWork(w), if s.stream.dispatching then s.stream.channel else []);
    RowsAppend(InHand(w.hand), w.queue);
  }

  /**
   Convergence. Whatever the interleaving of commits, reads, reconnects, batches,
   retries, chunk copies, crashes and resumes, a run that met none of the three
   hazards has, whenever it is quiet, copied the original.
   */
  lemma Convergence(init: Table, s: State)
    requires Reaches(Start(init), s) && !s.lost && Quiet(s)
    ensures s.shadow == Current(s.server)
  {
    InvReached(init, s);
    RowlessHand(s);
    CaughtUp(s);
  }

  /**
   Acknowledgement safety. AppliedTransactionCoordinates names a transaction
   only when every captured change up to its end was committed on the ghost,
   through any failures, cancellations and reconnects.
   */
  lemma AcknowledgedIsCommitted(init: Table, s: State, p: nat)
    requires Reaches(Start(init), s) && !s.lost && s.worker.acked.Some?
    requires s.worker.captured <= p < s.worker.acked.value
    ensures p in s.worker.committed
  {
    InvReached(init, s);
  }

  /** Nothing more is dispatched, and what is or can still be acknowledged was in work before. */
  ghost predicate Sealed(work: seq<Task>, acked: Option<nat>, s: State) {
    && !s.stream.dispatching
    && (forall c: nat :: Complete(c) in InWork(s.worker) ==> Complete(c) in work)
    && (s.worker.acked == acked || (s.worker.acked.Some? && Complete(s.worker.acked.value) in work))
  }

  lemma SealedAfterWorker(work: seq<Task>, acked: Option<nat>, s: State, step: WorkerStep)
    requires Sealed(work, acked, s) && WorkerEnabled(s, step)
    ensures Sealed(work, acked, WorkerNext(s, step))
  {
    var w := s.worker;
    match step
    case Take(available, size) => TakeFlow(s, available, size);
    case CommitBatch =>
      if LastMarker(w.hand.tasks).Some? {
        LastMarkerIn(w.hand.tasks);
        assert Complete(LastMarker(w.hand.tasks).value) in InWork(w);
      }
    case FailBatch(_) =>
    case CommitUnseen => assert InWork(WorkerNext(s, step).worker) == InWork(w);
    case Settle =>
      if LastMarker(w.hand.tasks).Some? {
        LastMarkerIn(w.hand.tasks);
        assert Complete(LastMarker(w.hand.tasks).value) in InWork(w);
      }
  }

  lemma SealedAfterStream(work: seq<Task>, acked: Option<nat>, s: State, step: StreamStep)
    requires Sealed(work, acked, s) && StreamEnabled(s, step)
    ensures Sealed(work, acked, StreamNext(s, step))
  {
    var s' := StreamNext(s, step);
    assert InWork(s'.worker) == InWork(s.worker) + if step.EnqueueSentinel? then [Write(step.id)] else [];
  }

  lemma SealedKept(work: seq<Task>, acked: Option<nat>, s: State, step: Step)
    requires Sealed(work, acked, s) && Enabled(s, step) && step != ByProcess(Resume)
    ensures Sealed(work, acked, Next(s, step))
  {
    match step
    case ByServer(x) => assert ServerNext(s, x).worker == s.worker;
    case ByStream(x) => SealedAfterStream(work, acked, s, x);
    case ByWorker(x) => SealedAfterWorker(work, acked, s, x);
    case ByCopy(x) => assert CopyNext(s, x).worker == s.worker;
    case ByProcess(x) => assert ProcessNext(s, x).worker == s.worker;
  }

  predicate Resumes(steps: seq<Step>) {
    exists i :: 0 <= i < |steps| && steps[i] == ByProcess(Resume)
  }

  lemma {:induction false} SealedRun(work: seq<Task>, acked: Option<nat>, s: State, steps: seq<Step>)
    requires Sealed(work, acked, s) && IsRun(s, steps) && !Resumes(steps)
    ensures Sealed(work, acked, Final(s, steps))
    decreases |steps|
  {
    if steps != [] {
      SealedKept(work, acked, s, steps[0]);
      assert forall i | 0 <= i < |steps[1..]| :: steps[1..][i] == steps[i + 1];
      SealedRun(work, acked, Next(s, steps[0]), steps[1..]);
    }
  }

  lemma {:induction false} MarkersBelowFloor(tasks: seq<Task>, floor: nat, at: nat, challenges: map<nat, nat>, c: nat)
    requires Ordered(tasks, floor, at, challenges) && floor <= at && Complete(c) in tasks
    ensures c <= FloorEnd(tasks, floor)
  {
    OrderedEnds(tasks, floor, at, challenges);
    var floor' := if tasks[0].Complete? then tasks[0].coord else floor;
    var at' := if tasks[0].Dml? then tasks[0].pos + 1 else at;
    assert FloorEnd(tasks, floor) == FloorEnd(tasks[1..], floor');
    OrderedEnds(tasks[1..], floor', at', challenges);
    if tasks[0] != Complete(c) {
      MarkersBelowFloor(tasks[1..], floor', at', challenges, c);
    }
  }

  /**
   After a failed delivery of change `p`, in every run of the process that
   follows, nothing is acknowledged but what the worker had received before; if
   the stream never fell back, that is no transaction that ends behind `p`.
   */
  lemma NoAcknowledgementPastLostRow(init: Table, s: State, p: nat, steps: seq<Step>)
    requires Reaches(Start(init), s) && !s.lost && StreamEnabled(s, DispatchFail) && s.stream.channel[0] == Dml(p)
    requires IsRun(StreamNext(s, DispatchFail), steps) && !Resumes(steps)
    ensures var acked := Final(StreamNext(s, DispatchFail), steps).worker.acked;
            && (acked == s.worker.acked || (acked.Some? && Complete(acked.value) in InWork(s.worker)))
            && (!s.fellBack && acked.Some? ==> acked.value <= p)
  {
    InvReached(init, s);
    SealedRun(InWork(s.worker), s.worker.acked, StreamNext(s, DispatchFail), steps);
    var acked := Final(StreamNext(s, DispatchFail), steps).worker.acked;
    if !s.fellBack && acked.Some? {
      var work, w, challenges := InWork(s.worker), s.worker, s.server.challenges;
      DispatchedOrder(s);
      OrderedEnds(work, w.floor, w.applied, challenges);
      OneTask(Dml(p), FloorEnd(work, w.floor), End(work, w.applied), challenges);
      if Complete(acked.value) in work {
        MarkersBelowFloor(work, w.floor, w.applied, challenges, acked.value);
      }
    }
  }

  /**
   Without a reconnect behind a transaction already read, the replay stays at or past
   what is acknowledged or stored.
   */
  lemma StoredIsApplied(init: Table, s: State)
    requires Reaches(Start(init), s) && !s.lost && !s.fellBack
    ensures s.worker.acked.Some? ==> s.worker.acked.value <= s.worker.applied
    ensures s.stored.Some? ==> s.stored.value.coord <= s.worker.applied
  {
    InvReached(init, s);
  }

  /**
   Sentinel correctness. A sentinel runs only when every change logged before
   its challenge has been applied; if nothing was logged since and the row copy
   is over, the ghost then holds what the original holds.
   */
  lemma SentinelMeansApplied(init: Table, s: State, id: nat)
    requires Reaches(Start(init), s) && !s.lost && !s.fellBack && id in s.worker.ran
    ensures id in s.server.challenges && s.server.challenges[id] <= s.worker.applied
    ensures s.copy.finished && s.server.challenges[id] == |s.server.log| ==> s.shadow == Current(s.server)
  {
    InvReached(init, s);
    if s.copy.finished && s.server.challenges[id] == |s.server.log| {
      FloorBelowLow(s);
      CaughtUp(s);
    }
  }

  /** The worker is never stuck with a batch: what it holds is in the log, so it can be committed. */
  lemma HeldBatchCanCommit(init: Table, s: State)
    requires Reaches(Start(init), s) && !s.lost && s.worker.hand.Holding?
    ensures WorkerEnabled(s, CommitBatch)
  {
    InvReached(init, s);
    HeldInLog(s);
  }

  lemma HeldInLog(s: State)
    requires Inv(s) && !s.lost && s.worker.hand.Holding?
    ensures InLog(s.worker.hand.tasks, |s.server.log|)
  {
    var held := s.worker.hand.tasks;
    var behind := s.worker.queue + if s.stream.dispatching then s.stream.channel else [];
    assert InFlight(s) == held + behind;
    GaplessAppend(held, behind, s.worker.applied, |s.server.log|);
    GaplessInLog(held, s.worker.applied, |s.server.log|);
  }

  /**
   All or nothing. Any batch and any chunk insert may fail, and a failed call has done to
   the ghost what it would have done, or nothing; it leaves the batch in hand, the
   acknowledged coordinate and the copied range alone. Any delivery may fail, and then
   nothing more is delivered; the stream may be cut at any time, and the process crash.
   */
  lemma FailuresAreAllOrNothing(s: State, end: Key, again: bool, built: bool)
    ensures s.worker.hand.Holding? ==>
              && WorkerEnabled(s, FailBatch(built))
              && var t := WorkerNext(s, FailBatch(built));
                 t == s.(worker := t.worker) && t.worker == s.worker.(hand := t.worker.hand) &&
                 t.worker.hand.Holding? && t.worker.hand.tasks == s.worker.hand.tasks
    ensures WorkerEnabled(s, CommitBatch) ==>
              && WorkerEnabled(s, CommitUnseen)
              && var seen, unseen := WorkerNext(s, CommitBatch), WorkerNext(s, CommitUnseen);
                 unseen.shadow == seen.shadow && unseen.worker == s.worker.(hand := Holding(s.worker.hand.tasks, true))
    ensures CopyEnabled(s, CopyChunk(end, again)) ==>
              && CopyEnabled(s, CopyUnseen(end, again))
              && CopyNext(s, CopyUnseen(end, again)) == s.(shadow := CopyNext(s, CopyChunk(end, again)).shadow)
    ensures StreamEnabled(s, Dispatch) ==>
              && StreamEnabled(s, DispatchFail)
              && var t := StreamNext(s, DispatchFail);
                 t == s.(stream := t.stream) && !StreamEnabled(t, Dispatch) && !StreamEnabled(t, DispatchFail)
    ensures StreamEnabled(s, Reconnect) && (s.stored.Some? ==> ProcessEnabled(s, Resume))
  {
  }

  // ----- runs that avoid the hazards

  /**
   The step is free of the hazards: a reconnect has a complete transaction to
   resume at, or none was completed since the stream started; after a resume no
   row is read before the listener is registered; and the statements of a batch
   that is retried do what they would have done at first.
   */
  predicate Careful(s: State, step: Step) {
    match step
    case ByStream(Reconnect) => s.stream.lastTrx.Some? || s.stream.since == s.stream.initial
    case ByStream(ReadRow) => s.resumed ==> s.stream.listening
    case ByWorker(CommitBatch) => WorkerEnabled(s, CommitBatch) ==> SameRebuilt(s)
    case ByWorker(CommitUnseen) => WorkerEnabled(s, CommitUnseen) ==> SameRebuilt(s)
    case _ => true
  }

  ghost predicate CarefulRun(s: State, steps: seq<Step>)
    requires IsRun(s, steps)
    decreases |steps|
  {
    steps == [] || (Careful(s, steps[0]) && CarefulRun(Next(s, steps[0]), steps[1..]))
  }

  predicate Unharmed(s: State) {
    !s.lost && !s.fellBack
  }

  lemma CarefulStreamIsUnharmed(s: State, step: StreamStep)
    requires FreshInv(s) && HeardInv(s) && FloorInv(s) && Unharmed(s) && StreamEnabled(s, step)
    ensures Unharmed(StreamNext(s, step)) <==> Careful(s, ByStream(step))
  {
  }

  /** A step meets no hazard if and only if it is careful. */
  lemma CarefulStepIsUnharmed(s: State, step: Step)
    requires Inv(s) && Unharmed(s) && Enabled(s, step)
    ensures Unharmed(Next(s, step)) <==> Careful(s, step)
  {
    match step
    case ByServer(x) => assert Unharmed(ServerNext(s, x));
    case ByStream(x) => CarefulStreamIsUnharmed(s, x);
    case ByWorker(x) => assert Unharmed(WorkerNext(s, x)) <==> Careful(s, step);
    case ByCopy(x) => assert Unharmed(CopyNext(s, x));
    case ByProcess(x) => assert Unharmed(ProcessNext(s, x));
  }

  lemma {:induction false} CarefulRunsAreUnharmed(s: State, steps: seq<Step>)
    requires Inv(s) && IsRun(s, steps) && CarefulRun(s, steps) && Unharmed(s)
    ensures Unharmed(Final(s, steps)) && Inv(Final(s, steps))
    decreases |steps|
  {
    if steps != [] {
      CarefulStepIsUnharmed(s, steps[0]);
      InvKept(s, steps[0]);
      CarefulRunsAreUnharmed(Next(s, steps[0]), steps[1..]);
    }
  }

  /**
   Checkpoint safety. After a crash at any step of a careful run, a resume from
   the stored coordinate and chunk end, over the ghost as the crash left it, and
   any careful run after it, is again a copy of the original whenever it is quiet.
   */
  lemma ResumeConverges(init: Table, before: seq<Step>, after: seq<Step>)
    requires IsRun(Start(init), before) && CarefulRun(Start(init), before)
    requires Enabled(Final(Start(init), before), ByProcess(Resume))
    requires var resumed := Next(Final(Start(init), before), ByProcess(Resume));
             IsRun(resumed, after) && CarefulRun(resumed, after) && Quiet(Final(resumed, after))
    ensures var s := Final(Next(Final(Start(init), before), ByProcess(Resume)), after);
            s.shadow == Current(s.server)
  {
    var crashed := Final(Start(init), before);
    InvStart(init);
    CarefulRunsAreUnharmed(Start(init), before);
    CarefulStepIsUnharmed(crashed, ByProcess(Resume));
    InvKept(crashed, ByProcess(Resume));
    var resumed := Next(crashed, ByProcess(Resume));
    CarefulRunsAreUnharmed(resumed, after);
    var s := Final(resumed, after);
    RowlessHand(s);
    CaughtUp(s);
  }

  lemma {:induction false} SentinelsAreNoRows(tasks: seq<Task>)
    requires OnlySentinels(tasks)
    ensures Rows(tasks) == []
  {
    if tasks != [] {
      SentinelsAreNoRows(tasks[1..]);
    }
  }

  /** After a resume, reading the next change leaves no gap in the replay if and only if the listener is registered. */
  lemma UnheardExactlyWhen(init: Table, s: State)
    requires Reaches(Start(init), s) && Unharmed(s) && s.resumed && s.stream.dispatching && StreamEnabled(s, ReadRow)
    ensures GapInv(StreamNext(s, ReadRow)) <==> s.stream.listening
  {
    InvReached(init, s);
    if s.stream.listening {
      GapAfterRead(s, ReadRow);
    } else {
      var s' := StreamNext(s, ReadRow);
      assert InFlight(s') == InFlight(s) && OnlySentinels(InFlight(s));
      SentinelsAreNoRows(InFlight(s));
      RowlessEnds(InFlight(s), s.worker.applied, 0);
    }
  }

  /**
   A reconnect keeps the stream from going back behind a transaction it has
   already completed if and only if the reader has read one completely, or none
   was completed since the stream started.
   */
  lemma ReconnectStaysAhead(init: Table, s: State)
    requires Reaches(Start(init), s) && Unharmed(s) && s.stream.dispatching
    ensures FloorEnd(InFlight(s), s.worker.floor) <= StreamNext(s, Reconnect).stream.next <==>
            s.stream.lastTrx.Some? || s.stream.since == s.stream.initial
  {
    InvReached(init, s);
  }

  // ----- the original under the lock

  /** The sentinel of a challenge written after all changes ran, and the row copy is over. */
  predicate Answered(s: State, id: nat) {
    && s.copy.finished && id in s.worker.ran
    && id in s.server.challenges && s.server.challenges[id] == |s.server.log|
  }

  ghost predicate Locked(s: State, id: nat) {
    Inv(s) && Unharmed(s) && Answered(s, id)
  }

  lemma EqualOnceAnswered(s: State, id: nat)
    requires Locked(s, id)
    ensures s.shadow == Current(s.server)
  {
    FloorBelowLow(s);
    CaughtUp(s);
  }

  predicate Undisturbed(step: Step) {
    step != ByProcess(Resume) && !(step.ByServer? && step.server.CommitChanges?)
  }

  lemma ServerKept(s: State, step: Step)
    requires Enabled(s, step)
    ensures !step.ByServer? ==> Next(s, step).server == s.server
  {
    match step
    case ByServer(x) =>
    case ByStream(x) => assert StreamNext(s, x).server == s.server;
    case ByWorker(x) => assert WorkerNext(s, x).server == s.server;
    case ByCopy(x) => assert CopyNext(s, x).server == s.server;
    case ByProcess(x) => assert ProcessNext(s, x).server == s.server;
  }

  lemma DoneKept(s: State, step: Step)
    requires Enabled(s, step) && step != ByProcess(Resume)
    ensures s.worker.ran <= Next(s, step).worker.ran && (s.copy.finished ==> Next(s, step).copy.finished)
  {
    match step
    case ByServer(x) =>
    case ByStream(x) => assert StreamNext(s, x).worker.ran == s.worker.ran && StreamNext(s, x).copy == s.copy;
    case ByWorker(x) => assert s.worker.ran <= WorkerNext(s, x).worker.ran && WorkerNext(s, x).copy == s.copy;
    case ByCopy(x) => assert CopyNext(s, x).worker == s.worker;
    case ByProcess(x) => assert ProcessNext(s, x).worker == s.worker && ProcessNext(s, x).copy == s.copy;
  }

  /** Without a write and a crash the log stays as it is, and the copy, the challenges and the sentinels stay done. */
  lemma LogKept(s: State, step: Step)
    requires Enabled(s, step) && Undisturbed(step)
    ensures Next(s, step).server.log == s.server.log && Next(s, step).server.init == s.server.init
    ensures forall id | id in s.server.challenges ::
              id in Next(s, step).server.challenges && Next(s, step).server.challenges[id] == s.server.challenges[id]
    ensures s.worker.ran <= Next(s, step).worker.ran && (s.copy.finished ==> Next(s, step).copy.finished)
  {
    ServerKept(s, step);
    DoneKept(s, step);
  }

  lemma LockedKept(s: State, step: Step, id: nat)
    requires Locked(s, id) && Enabled(s, step) && Careful(s, step) && Undisturbed(step)
    ensures Locked(Next(s, step), id) && Next(s, step).server.log == s.server.log &&
            Next(s, step).server.init == s.server.init
  {
    CarefulStepIsUnharmed(s, step);
    InvKept(s, step);
    LogKept(s, step);
  }

  lemma {:induction false} LockedRun(s: State, steps: seq<Step>, id: nat)
    requires Locked(s, id) && IsRun(s, steps) && CarefulRun(s, steps) &&
             forall i | 0 <= i < |steps| :: Undisturbed(steps[i])
    ensures Locked(Final(s, steps), id) && Current(Final(s, steps).server) == Current(s.server)
    decreases |steps|
  {
    if steps != [] {
      LockedKept(s, steps[0], id);
      assert forall i | 0 <= i < |steps[1..]| :: steps[1..][i] == steps[i + 1];
      LockedRun(Next(s, steps[0]), steps[1..], id);
    }
  }

  /**
   Once the sentinel of a challenge has run and nothing is written to the
   original, the ghost equals the original, and stays so through everything the
   process still does.
   */
  lemma GhostStaysEqual(init: Table, s: State, id: nat, steps: seq<Step>)
    requires Reaches(Start(init), s) && Unharmed(s) && Answered(s, id)
    requires IsRun(s, steps) && CarefulRun(s, steps) && forall i | 0 <= i < |steps| :: Undisturbed(steps[i])
    ensures s.shadow == Current(s.server)
    ensures Final(s, steps).shadow == Current(Final(s, steps).server) == Current(s.server)
  {
    InvReached(init, s);
    EqualOnceAnswered(s, id);
    LockedRun(s, steps, id);
    EqualOnceAnswered(Final(s, steps), id);
  }

  // ----- the hazards are real

  lemma {:induction false} RunAppend(s: State, steps: seq<Step>, step: Step)
    requires IsRun(s, steps) && Enabled(Final(s, steps), step)
    ensures IsRun(s, steps + [step]) && Final(s, steps + [step]) == Next(Final(s, steps), step)
    decreases |steps|
  {
    if steps == [] {
      assert steps + [step] == [step];
      assert IsRun(Next(s, step), [step][1..]);
    } else {
      assert (steps + [step])[0] == steps[0] && (steps + [step])[1..] == steps[1..] + [step];
      RunAppend(Next(s, steps[0]), steps[1..], step);
    }
  }

  lemma Extend(s: State, s': State, step: Step) returns (s'': State)
    requires Reaches(s, s') && Enabled(s', step)
    ensures s'' == Next(s', step) && Reaches(s, s'')
  {
    s'' := Next(s', step);
    var steps :| IsRun(s, steps) && Final(s, steps) == s';
    RunAppend(s, steps, step);
  }

  lemma ThenServer(s: State, s': State, step: ServerStep) returns (s'': State)
    requires Reaches(s, s') && ServerEnabled(s', step)
    ensures s'' == ServerNext(s', step) && Reaches(s, s'')
  {
    s'' := Extend(s, s', ByServer(step));
  }

  lemma ThenStream(s: State, s': State, step: StreamStep) returns (s'': State)
    requires Reaches(s, s') && StreamEnabled(s', step)
    ensures s'' == StreamNext(s', step) && Reaches(s, s'')
  {
    s'' := Extend(s, s', ByStream(step));
  }

  lemma ThenWorker(s: State, s': State, step: WorkerStep) returns (s'': State)
    requires Reaches(s, s') && WorkerEnabled(s', step)
    ensures s'' == WorkerNext(s', step) && Reaches(s, s'')
  {
    s'' := Extend(s, s', ByWorker(step));
  }

  lemma ThenCopy(s: State, s': State, step: CopyStep) returns (s'': State)
    requires Reaches(s, s') && CopyEnabled(s', step)
    ensures s'' == CopyNext(s', step) && Reaches(s, s'')
  {
    s'' := Extend(s, s', ByCopy(step));
  }

  lemma ThenProcess(s: State, s': State, step: ProcessStep) returns (s'': State)
    requires Reaches(s, s') && ProcessEnabled(s', step)
    ensures s'' == ProcessNext(s', step) && Reaches(s, s'')
  {
    s'' := Extend(s, s', ByProcess(step));
  }

  const A: Key := [1.0]
  const B: Key := [2.0]
  const OneRow: Table := map[A := V(7.0)]

  function V(x: Value): Row {
    map["v" := x]
  }

  /** A one-row table about to be copied. */
  lemma AboutToCopy() returns (s: State)
    ensures Reaches(Start(OneRow), s)
    ensures s == Start(OneRow).(stream := Start(OneRow).stream.(listening := true),
                                copy := Copy(Some(Bounds(A, A)), None, false))
  {
    var s0 := Start(OneRow);
    assert IsRun(s0, []) && Final(s0, []) == s0;
    s := ThenStream(s0, s0, Listen);
    assert Current(s.server) == OneRow;
    s := ThenCopy(s0, s, ReadRange(Bounds(A, A)));
  }

  /** A one-row table whose row copy is complete. */
  lemma CopiedOneRow() returns (s: State)
    ensures Reaches(Start(OneRow), s)
    ensures s == Start(OneRow).(stream := Start(OneRow).stream.(listening := true), shadow := OneRow,
                                copy := Copy(Some(Bounds(A, A)), Some(A), true))
  {
    s := AboutToCopy();
    assert Current(s.server) == OneRow;
    s := ThenCopy(Start(OneRow), s, CopyChunk(A, false));
    assert CopyRows(map[], OneRow, A, true, A) == OneRow;
    LessIrreflexive(A);
    s := ThenCopy(Start(OneRow), s, FinishCopy(None));
  }

  /** The rows of a range may be gone before any chunk is copied; the end then recorded was never copied. */
  lemma UncopiedEndIsRecorded() returns (s: State)
    ensures Reaches(Start(OneRow), s) && s.copy.finished && s.copy.copiedTo == Some(A)
    ensures s.shadow == map[] && Current(s.server) == map[]
  {
    var s0 := Start(OneRow);
    s := AboutToCopy();
    assert Current(s.server) == OneRow;
    s := LogOne(s0, s, Delete(A));
    assert Current(s.server) == map[];
    s := ThenCopy(s0, s, FinishCopy(Some(A)));
  }

  lemma LogOne(s0: State, s: State, change: Change) returns (s': State)
    requires Reaches(s0, s) && ServerInv(s.server) && Possible(Current(s.server), change)
    ensures Reaches(s0, s') && Current(s'.server) == Commit(Current(s.server), change)
    ensures s' == s.(server := s.server.(log := s.server.log + [change], ends := s.server.ends + {|s.server.log| + 1}))
  {
    ValidLogAppend(s.server.init, s.server.log, change);
    s' := ThenServer(s0, s, CommitChanges([change]));
  }

  /** The only task in the channel travels to the worker's hand. */
  lemma Deliver(s0: State, s: State, task: Task) returns (s': State)
    requires Reaches(s0, s) && s.stream.dispatching && s.stream.listening && s.stream.channel == [task] && !task.Write?
    requires s.worker.queue == [] && s.worker.hand.Idle?
    ensures Reaches(s0, s')
    ensures s' == s.(stream := s.stream.(channel := []),
                     worker := s.worker.(hand := if task.Dml? then Holding([task], false) else Settling([task])))
  {
    s' := ThenStream(s0, s, Dispatch);
    assert s'.worker.queue == [task] && s'.stream.channel == [];
    assert Batch([task], 0, 1) == [task];
    s' := ThenWorker(s0, s', Take(0, 1));
  }

  /** The change at the reader's position travels to the worker's hand. */
  lemma TakeOne(s0: State, s: State) returns (s': State)
    requires Reaches(s0, s) && StreamEnabled(s, ReadRow)
    requires s.stream.dispatching && s.stream.listening && s.stream.channel == []
    requires s.worker.queue == [] && s.worker.hand.Idle?
    ensures Reaches(s0, s')
    ensures s' == s.(stream := s.stream.(next := s.stream.next + 1, hasRows := true),
                     worker := s.worker.(hand := Holding([Dml(s.stream.next)], false)))
  {
    s' := ThenStream(s0, s, ReadRow);
    s' := Deliver(s0, s', Dml(s.stream.next));
  }

  lemma OneRowBatch(g: Table, log: seq<Change>, p: nat, rebuilt: bool, at: nat)
    requires p < |log|
    ensures InLog([Dml(p)], |log|) && Leftover([Dml(p)]) == [] && End([Dml(p)], at) == p + 1
    ensures ApplyTasks(g, log, [Dml(p)], rebuilt) == ApplyBuilt(g, log[p], rebuilt)
  {
    assert [Dml(p)][0] == Dml(p) && [Dml(p)][1..] == [];
    assert LastMarker([Dml(p)][1..]) == None && Writes([Dml(p)][1..]) == [];
  }

  lemma CommitOne(s0: State, s: State, p: nat) returns (s': State)
    requires Reaches(s0, s) && s.worker.hand.Holding? && s.worker.hand.tasks == [Dml(p)] && p < |s.server.log|
    ensures Reaches(s0, s')
    ensures s'.worker.hand.Idle? && s'.worker.queue == s.worker.queue && s'.worker.applied == p + 1
    ensures s'.worker.acked == s.worker.acked
    ensures s' == s.(worker := s'.worker, lost := s'.lost,
                     shadow := ApplyBuilt(s.shadow, s.server.log[p], s.worker.hand.rebuilt))
  {
    OneRowBatch(s.shadow, s.server.log, p, s.worker.hand.rebuilt, s.worker.applied);
    s' := ThenWorker(s0, s, CommitBatch);
    assert LastMarker([]) == None;
    s' := ThenWorker(s0, s', Settle);
  }

  /** A retried batch with a key-changing update leaves the row under its old key. */
  lemma RetriedMoveDiverges() returns (s: State)
    ensures Reaches(Start(OneRow), s) && Quiet(s) && s.shadow != Current(s.server)
  {
    var s0 := Start(OneRow);
    s := CopiedOneRow();
    var move := Update(A, B, V(7.0));
    s := LogOne(s0, s, move);
    s := TakeOne(s0, s);
    s := ThenWorker(s0, s, FailBatch(true));
    s := CommitOne(s0, s, 0);
    assert A in s.shadow && A !in Current(s.server);
    assert InFlight(s) == [];
  }

  /** The transaction end at the reader's position travels to the worker and is acknowledged. */
  lemma AcknowledgeOne(s0: State, s: State) returns (s': State)
    requires Reaches(s0, s) && StreamEnabled(s, ReadXid) && s.stream.hasRows
    requires s.stream.dispatching && s.stream.listening && s.stream.channel == []
    requires s.worker.queue == [] && s.worker.hand.Idle?
    ensures Reaches(s0, s')
    ensures var n := s.stream.next;
            s' == s.(stream := s.stream.(since := n, lastTrx := Some(n), hasRows := false),
                     worker := s.worker.(acked := Some(n), floor := n))
  {
    var task := Complete(s.stream.next);
    s' := ThenStream(s0, s, ReadXid);
    s' := Deliver(s0, s', task);
    assert [task][1..] == [] && LastMarker([task][1..]) == None && Writes([task][1..]) == [];
    s' := ThenWorker(s0, s', Settle);
  }

  /** Nothing is on its way, and the reader is at the end of the log. */
  predicate Resting(s: State) {
    && s.stream.dispatching && s.stream.listening && s.stream.channel == []
    && s.worker.queue == [] && s.worker.hand.Idle? && s.stream.next == s.stream.since == |s.server.log|
  }

  /** The server after one change of row A. */
  function Changed(server: Server, row: Row): Server {
    server.(log := server.log + [Update(A, A, row)], ends := server.ends + {|server.log| + 1})
  }

  /** One change of row A travels to the worker's hand. */
  lemma TakeChange(s0: State, s: State, row: Row) returns (s': State)
    requires Reaches(s0, s) && ServerInv(s.server) && A in Current(s.server) && Resting(s)
    ensures Reaches(s0, s')
    ensures Current(s'.server) == Commit(Current(s.server), Update(A, A, row))
    ensures s' == s.(server := Changed(s.server, row), stream := s.stream.(next := s.stream.next + 1, hasRows := true),
                     worker := s.worker.(hand := Holding([Dml(|s.server.log|)], false)))
  {
    s' := LogOne(s0, s, Update(A, A, row));
    s' := TakeOne(s0, s');
  }

  /** One change of row A, replayed. */
  lemma ReplayRow(s0: State, s: State, row: Row) returns (s': State)
    requires Reaches(s0, s) && ServerInv(s.server) && A in Current(s.server) && A in s.shadow && Resting(s)
    ensures Reaches(s0, s')
    ensures Current(s'.server) == Commit(Current(s.server), Update(A, A, row))
    ensures s' == s.(server := Changed(s.server, row), stream := s.stream.(next := s.stream.next + 1, hasRows := true),
                     shadow := s.shadow[A := row], worker := s'.worker, lost := s'.lost)
    ensures s'.worker.hand.Idle? && s'.worker.queue == [] && s'.worker.applied == |s.server.log| + 1
  {
    s' := TakeChange(s0, s, row);
    s' := CommitOne(s0, s', |s.server.log|);
  }

  /** One change of row A, replayed and acknowledged. */
  lemma ReplayOne(s0: State, s: State, row: Row) returns (s': State)
    requires Reaches(s0, s) && ServerInv(s.server) && A in Current(s.server) && A in s.shadow && Resting(s)
    ensures Reaches(s0, s') && ServerInv(s'.server) && Resting(s')
    ensures Current(s'.server) == Commit(Current(s.server), Update(A, A, row))
    ensures var n := |s.server.log| + 1;
            && s' == s.(server := Changed(s.server, row),
                        stream := s.stream.(next := n, since := n, lastTrx := Some(n), hasRows := false),
                        shadow := s.shadow[A := row], worker := s'.worker, lost := s'.lost)
            && s'.worker.acked == Some(n) && s'.worker.applied == n
  {
    s' := ReplayRow(s0, s, row);
    s' := AcknowledgeOne(s0, s');
    ValidLogAppend(s.server.init, s.server.log, Update(A, A, row));
  }

  lemma Store(s0: State, s: State) returns (s': State)
    requires Reaches(s0, s) && s.copy.copiedTo.Some? && s.worker.acked.Some? && s.stream.next <= s.worker.acked.value
    ensures Reaches(s0, s') && s'.sampled.Some?
    ensures s' == s.(sampled := s'.sampled, stored := Some(Checkpoint(s.worker.acked.value, s.copy.copiedTo.value)))
  {
    s' := ThenProcess(s0, s, SampleCheckpoint);
    s' := ThenProcess(s0, s', StoreCheckpoint);
  }

  /** The original holds row A only; the resumed copy finds nothing beyond it. */
  lemma FinishResumed(s0: State, s: State) returns (s': State)
    requires Reaches(s0, s) && s.stream.listening && s.copy == Copy(None, Some(A), false) &&
             Current(s.server).Keys == {A}
    ensures Reaches(s0, s') && s' == s.(copy := Copy(Some(Bounds(A, A)), Some(A), true))
  {
    assert forall k | k in Current(s.server) :: k == A;
    s' := ThenCopy(s0, s, ReadRange(Bounds(A, A)));
    LessIrreflexive(A);
    s' := ThenCopy(s0, s', FinishCopy(None));
  }

  /** A crash and a resume whose first change is read before anybody listens. */
  lemma ResumeUnheard(s0: State, s: State) returns (s': State)
    requires Reaches(s0, s) && s.stored.Some? && s.stored.value.coord < |s.server.log| && !s.fellBack
    ensures Reaches(s0, s')
    ensures var p, end := s.stored.value.coord, s.stored.value.copiedTo;
            && s'.server == s.server && s'.shadow == s.shadow && !s'.fellBack
            && s'.stream == Stream(p, p + 1, p, None, false, [], true, true, {})
            && s'.worker.hand.Idle? && s'.worker.queue == [] && s'.copy == Copy(None, Some(end), false)
  {
    var p := s.stored.value.coord;
    s' := ThenProcess(s0, s, Resume);
    s' := ThenStream(s0, s', ReadRow);
    s' := ThenStream(s0, s', Listen);
  }

  /** A change read after a resume before the listener is back is never replayed. */
  lemma UnheardChangeDiverges() returns (s: State)
    ensures Reaches(Start(OneRow), s) && Quiet(s) && !s.fellBack && s.shadow != Current(s.server)
  {
    var s0 := Start(OneRow);
    s := CopiedOneRow();
    s := ReplayOne(s0, s, V(8.0));
    s := Store(s0, s);
    s := LogOne(s0, s, Update(A, A, V(9.0)));
    var current := Current(s.server);
    assert current[A] == V(9.0) && current.Keys == {A};
    assert V(8.0)["v"] != V(9.0)["v"];
    s := ResumeUnheard(s0, s);
    s := FinishResumed(s0, s);
    assert InFlight(s) == [];
  }

  /** Two reconnects without a transaction in between go back to the start. */
  lemma ReconnectTwice(s0: State, s: State) returns (s': State)
    requires Reaches(s0, s) && s.stream.lastTrx == Some(s.stream.since)
    ensures Reaches(s0, s') && s' == s.(stream := s'.stream, fellBack := s'.fellBack)
    ensures var start := s.stream.initial;
            s'.stream == s.stream.(next := start, since := start, lastTrx := None, hasRows := false)
  {
    s' := ThenStream(s0, s, Reconnect);
    s' := ThenStream(s0, s', Reconnect);
  }

  /** Row A was changed twice, and both changes are replayed and acknowledged. */
  lemma ReplayedTwice() returns (s: State)
    ensures Reaches(Start(OneRow), s) && s.shadow == map[A := V(9.0)] && Current(s.server) == map[A := V(9.0)]
    ensures |s.server.log| == 2 && s.server.log[0] == Update(A, A, V(8.0)) && s.server.ends == {1, 2}
    ensures s.stream == Stream(0, 2, 2, Some(2), false, [], true, true, {}) && s.copy.copiedTo == Some(A)
    ensures s.worker.queue == [] && s.worker.hand.Idle? && s.worker.acked == Some(2)
  {
    s := CopiedOneRow();
    s := ReplayOne(Start(OneRow), s, V(8.0));
    s := ReplayOne(Start(OneRow), s, V(9.0));
  }

  /** A fallback then leaves the ghost at the first change again. */
  lemma FallenBack() returns (s: State)
    ensures Reaches(Start(OneRow), s) && s.shadow == map[A := V(8.0)] && Current(s.server) == map[A := V(9.0)]
    ensures s.copy.copiedTo == Some(A) && s.worker.acked == Some(|s.server.log|) && s.stream.next == 1 <= |s.server.log|
  {
    var s0 := Start(OneRow);
    s := ReplayedTwice();
    s := ReconnectTwice(s0, s);
    s := TakeOne(s0, s);
    s := CommitOne(s0, s, 0);
  }

  /** Two failures in a row send the stream back to its start; a checkpoint stored then skips what must be replayed. */
  lemma FallBackDiverges() returns (s: State)
    ensures Reaches(Start(OneRow), s) && Quiet(s) && s.resumed && s.shadow != Current(s.server)
  {
    var s0 := Start(OneRow);
    s := FallenBack();
    s := Store(s0, s);
    s := ThenProcess(s0, s, Resume);
    s := ThenStream(s0, s, Listen);
    assert V(8.0)["v"] != V(9.0)["v"];
    s := FinishResumed(s0, s);
    assert InFlight(s) == [];
  }
}
