/** Every step of the migration keeps the invariant, hence so does every run. */
module ProtocolProof {
  import opened Wrappers
  import opened Keys
  import opened Replay
  import opened Batching
  import opened Flow
  import opened Protocol

  lemma FreshAfterStream(s: State, step: StreamStep)
    requires FreshInv(s) && HeardInv(s) && StreamEnabled(s, step)
    ensures FreshInv(StreamNext(s, step))
  {
  }

  /** The step puts a task into the channel. */
  predicate Sends(s: State, step: StreamStep) {
    (step.ReadRow? && s.stream.listening) || (step.ReadXid? && s.stream.hasRows) || step.ReadChallenge?
  }

  // ----- what is heard

  lemma HeardAfterReading(s: State, step: StreamStep)
    requires FreshInv(s) && HeardInv(s) && StreamEnabled(s, step) && !StreamNext(s, step).lost
    requires step.ReadRow? || step.ReadXid? || step.ReadChallenge? || step.Reconnect? || step.Listen?
    ensures HeardInv(StreamNext(s, step))
  {
    var s' := StreamNext(s, step);
    if !s.stream.listening && !s.resumed {
      assert InFlight(s) == [] && InFlight(s') == [];
    }
    assert !Sends(s, step) ==> InFlight(s') == InFlight(s);
  }

  lemma HeardAfterMoving(s: State, step: StreamStep)
    requires HeardInv(s) && StreamEnabled(s, step) && !StreamNext(s, step).lost
    requires step.Dispatch? || step.DispatchFail? || step.EnqueueSentinel?
    ensures HeardInv(StreamNext(s, step))
  {
    var s' := StreamNext(s, step);
    assert Undecoded(s.stream) ==> |InFlight(s)| == |InWork(s.worker)| + |s.stream.channel|;
    assert !s.stream.listening ==>
             InWork(s'.worker) == InWork(s.worker) + if step.EnqueueSentinel? then [Write(step.id)] else [];
  }

  lemma HeardAfterWorker(s: State, step: WorkerStep)
    requires HeardInv(s) && GapInv(s) && WorkerEnabled(s, step)
    ensures HeardInv(WorkerNext(s, step))
  {
    var s', w := WorkerNext(s, step), s.worker;
    assert Undecoded(s.stream) ==> |InFlight(s)| >= |InWork(w)| == |InHand(w.hand)| + |w.queue|;
    match step
    case Take(available, size) =>
      TakeFlow(s, available, size);
      BatchFunctionLast(w.queue, available, size);
    case CommitBatch => assert InWork(w)[0] == w.hand.tasks[0] && |InWork(w)| > 0;
    case FailBatch(_) => assert InWork(s'.worker) == InWork(w);
    case CommitUnseen => assert InWork(s'.worker) == InWork(w);
    case Settle =>
      assert InWork(s'.worker) == w.queue;
      assert forall i | 0 <= i < |w.queue| :: w.queue[i] == InWork(w)[|w.hand.tasks| + i];
  }

  // ----- how the flow changes

  lemma AppendFlow(s: State, s': State, t: Task)
    requires s'.worker == s.worker && s'.stream.dispatching == s.stream.dispatching
    requires s'.stream.channel == s.stream.channel + [t]
    ensures InFlight(s') == if s.stream.dispatching then InFlight(s) + [t] else InFlight(s)
  {
  }

  lemma TakeFlow(s: State, available: nat, size: nat)
    requires s.worker.hand.Idle? && available < |s.worker.queue|
    ensures InFlight(DoTake(s, available, size)) == InFlight(s)
    ensures InWork(DoTake(s, available, size).worker) == InWork(s.worker)
  {
    var s' := DoTake(s, available, size);
    assert InWork(s'.worker) == InWork(s.worker);
  }

  lemma DispatchFlow(s: State)
    requires s.stream.dispatching && s.stream.channel != []
    ensures InFlight(s) == InWork(s.worker) + [s.stream.channel[0]] + s.stream.channel[1..]
    ensures var s', t := DoDispatch(s), s.stream.channel[0];
            InFlight(s') ==
            InWork(s.worker) + (if !t.Write? && s.stream.listening then [t] else []) + s.stream.channel[1..]
  {
    var s', t := DoDispatch(s), s.stream.channel[0];
    assert s.stream.channel == [t] + s.stream.channel[1..];
    assert InWork(s'.worker) == InWork(s.worker) + if !t.Write? && s.stream.listening then [t] else [];
  }

  // ----- the gap-freedom of the flow

  lemma GapAfterRead(s: State, step: StreamStep)
    requires GapInv(s) && ServerInv(s.server) && StreamEnabled(s, step)
    requires Sends(s, step)
    ensures GapInv(StreamNext(s, step))
  {
    var s', n := StreamNext(s, step), |s.server.log|;
    var t := s'.stream.channel[|s.stream.channel|];
    AppendFlow(s, s', t);
    GaplessAppend(InFlight(s), [t], s.worker.applied, n);
  }

  /** Leaving out a task that is not a row, or a row that nothing is ahead of. */
  lemma GaplessWithout(work: seq<Task>, t: Task, rest: seq<Task>, at: nat, n: nat)
    requires Gapless(work + [t] + rest, at, n)
    ensures !t.Dml? ==> Gapless(work + [] + rest, at, n) && End(work + [] + rest, at) == End(work + [t] + rest, at)
    ensures t.Dml? && work == [] ==> t.pos < n
    ensures t.Dml? && work == [] ==>
              Gapless(work + [] + rest, t.pos + 1, n) && End(work + [] + rest, t.pos + 1) == End(work + [t] + rest, at)
  {
    GaplessAppend(work + [t], rest, at, n);
    GaplessAppend(work, [t], at, n);
    assert work + [] + rest == work + rest;
    GaplessAppend(work, rest, at, n);
    assert work == [] ==> work + rest == rest;
  }

  /** A task that joins the queue, or a sentinel that is put aside. */
  lemma GapAfterKept(s: State)
    requires GapInv(s) && StreamEnabled(s, Dispatch) && (s.stream.channel[0].Write? || s.stream.listening)
    ensures GapInv(DoDispatch(s))
  {
    DispatchFlow(s);
    if s.stream.channel[0].Write? {
      GaplessWithout(InWork(s.worker), s.stream.channel[0], s.stream.channel[1..], s.worker.applied, |s.server.log|);
    }
  }

  /** A row that is not decoded, or the end of a transaction with no decoded row. */
  lemma GapAfterUndecoded(s: State, step: StreamStep)
    requires GapInv(s) && FreshInv(s) && HeardInv(s) && ServerInv(s.server) && StreamEnabled(s, step) &&
             !StreamNext(s, step).lost
    requires (step.ReadRow? || step.ReadXid?) && !Sends(s, step)
    ensures GapInv(StreamNext(s, step))
  {
    assert InFlight(s) == [] && InFlight(StreamNext(s, step)) == [];
  }

  lemma GapAfterCommitBatch(s: State)
    requires GapInv(s) && WorkerEnabled(s, CommitBatch)
    ensures GapInv(WorkerNext(s, CommitBatch))
    ensures HighInv(s) ==> HighInv(WorkerNext(s, CommitBatch))
  {
    var s', n, w := WorkerNext(s, CommitBatch), |s.server.log|, s.worker;
    var tasks, left := w.hand.tasks, Leftover(w.hand.tasks);
    var rest := w.queue + if s.stream.dispatching then s.stream.channel else [];
    assert InFlight(s) == tasks + rest && InFlight(s') == left + rest;
    GaplessAppend(tasks, rest, w.applied, n);
    GaplessBounded(tasks, w.applied, n);
    if !HighInv(s) {
      LeftoverNoRows(tasks);
    } else {
      MarkedAppend(tasks, rest, w.high);
      LeftoverMarked(tasks, w.high);
      MarkedAppend(left, rest, s'.worker.high);
      HighCovers(tasks, w.applied, w.high);
      CommittedCoverHigh(tasks, w.high);
    }
    RowlessEnds(left, s'.worker.applied, s'.worker.high);
    GaplessAppend(left, rest, s'.worker.applied, n);
    GaplessOfNoRows(left, s'.worker.applied, n);
  }

  lemma LeftoverNoRows(tasks: seq<Task>)
    ensures Rows(Leftover(tasks)) == []
  {
    var m := if LastMarker(tasks).Some? then [Complete(LastMarker(tasks).value)] else [];
    var w := if Writes(tasks) != [] then [Write(Writes(tasks)[0])] else [];
    assert Rows(m) == [];
    assert Rows(w) == [];
    RowsAppend(m, w);
  }

  lemma {:induction false} GaplessOfNoRows(tasks: seq<Task>, at: nat, n: nat)
    requires Rows(tasks) == []
    ensures Gapless(tasks, at, n)
  {
    if tasks != [] {
      GaplessOfNoRows(tasks[1..], at, n);
    }
  }

  /** A marked batch brings the furthest position on only by its own rows. */
  lemma {:induction false} CommittedCoverHigh(tasks: seq<Task>, high: nat)
    requires Marked(tasks, high)
    ensures forall p | high <= p < HighEnd(tasks, high) :: p in Rows(tasks)
  {
    if tasks != [] {
      if tasks[0].Dml? {
        CommittedCoverHigh(tasks[1..], Max(high, tasks[0].pos + 1));
      } else {
        CommittedCoverHigh(tasks[1..], high);
      }
    }
  }

  lemma GapAfterSettle(s: State)
    requires GapInv(s) && WorkerEnabled(s, Settle)
    ensures GapInv(WorkerNext(s, Settle))
  {
    var s', n, w := WorkerNext(s, Settle), |s.server.log|, s.worker;
    var rest := w.queue + if s.stream.dispatching then s.stream.channel else [];
    assert InFlight(s) == w.hand.tasks + rest && InFlight(s') == rest;
    RowlessEnds(w.hand.tasks, w.applied, w.high);
    GaplessAppend(w.hand.tasks, rest, w.applied, n);
  }

  lemma GapAfterEnqueue(s: State, id: nat)
    requires GapInv(s) && StreamEnabled(s, EnqueueSentinel(id))
    ensures GapInv(StreamNext(s, EnqueueSentinel(id)))
  {
    var s', n, at := StreamNext(s, EnqueueSentinel(id)), |s.server.log|, s.worker.applied;
    var work, rest := InWork(s.worker), if s.stream.dispatching then s.stream.channel else [];
    assert InWork(s'.worker) == work + [Write(id)];
    GaplessAppend(work, rest, at, n);
    GaplessAppend(work, [Write(id)], at, n);
    GaplessAppend(work + [Write(id)], rest, at, n);
  }

  lemma GapAfterStream(s: State, step: StreamStep)
    requires ServerInv(s.server) && GapInv(s) && FreshInv(s) && HeardInv(s) && StreamEnabled(s, step) &&
             !StreamNext(s, step).lost
    ensures GapInv(StreamNext(s, step))
  {
    var s', n, at := StreamNext(s, step), |s.server.log|, s.worker.applied;
    match step
    case Dispatch => GapAfterKept(s);
    case DispatchFail =>
      GaplessAppend(InWork(s.worker), s.stream.channel, at, n);
      assert InFlight(s') == InWork(s.worker);
    case EnqueueSentinel(id) => GapAfterEnqueue(s, id);
    case Reconnect => assert InFlight(s') == InFlight(s);
    case Listen => assert InFlight(s') == InFlight(s);
    case _ =>
      if Sends(s, step) {
        GapAfterRead(s, step);
      } else {
        GapAfterUndecoded(s, step);
      }
  }

  lemma GapAfterWorker(s: State, step: WorkerStep)
    requires GapInv(s) && WorkerEnabled(s, step)
    ensures GapInv(WorkerNext(s, step))
  {
    match step
    case Take(available, size) => TakeFlow(s, available, size);
    case CommitBatch => GapAfterCommitBatch(s);
    case FailBatch(_) => assert InFlight(WorkerNext(s, step)) == InFlight(s);
    case CommitUnseen => assert InFlight(WorkerNext(s, step)) == InFlight(s);
    case Settle => GapAfterSettle(s);
  }

  // ----- the history of the replay

  lemma HighAfterRead(s: State, step: StreamStep)
    requires GapInv(s) && HighInv(s) && ServerInv(s.server) && StreamEnabled(s, step)
    requires Sends(s, step)
    ensures HighInv(StreamNext(s, step))
  {
    var s', w := StreamNext(s, step), s.worker;
    var t := s'.stream.channel[|s.stream.channel|];
    AppendFlow(s, s', t);
    HighCovers(InFlight(s), w.applied, w.high);
    MarkedAppend(InFlight(s), [t], w.high);
  }

  lemma HighAfterDispatch(s: State)
    requires HighInv(s) && FreshInv(s) && StreamEnabled(s, Dispatch) && !StreamNext(s, Dispatch).lost
    requires s.stream.listening || s.stream.channel[0].Write?
    ensures HighInv(StreamNext(s, Dispatch))
  {
    var high, work, t, rest := s.worker.high, InWork(s.worker), s.stream.channel[0], s.stream.channel[1..];
    DispatchFlow(s);
    MarkedAppend(work + [t], rest, high);
    MarkedAppend(work, [t], high);
    if t.Write? {
      assert work + [] + rest == work + rest;
      MarkedAppend(work, rest, high);
    }
  }

  lemma HighAfterUndecoded(s: State, step: StreamStep)
    requires HighInv(s) && FreshInv(s) && HeardInv(s) && StreamEnabled(s, step) && !StreamNext(s, step).lost
    requires (step.ReadRow? || step.ReadXid?) && !Sends(s, step)
    ensures HighInv(StreamNext(s, step))
  {
    assert InFlight(s) == [] && InFlight(StreamNext(s, step)) == [];
  }

  lemma HighAfterSettle(s: State)
    requires GapInv(s) && HighInv(s) && WorkerEnabled(s, Settle)
    ensures HighInv(WorkerNext(s, Settle))
  {
    var s', w := WorkerNext(s, Settle), s.worker;
    var rest := w.queue + if s.stream.dispatching then s.stream.channel else [];
    assert InFlight(s) == w.hand.tasks + rest && InFlight(s') == rest;
    RowlessEnds(w.hand.tasks, w.applied, w.high);
    MarkedAppend(w.hand.tasks, rest, w.high);
    if LastMarker(w.hand.tasks).Some? {
      LastMarkerBelowHigh(w.hand.tasks, w.high);
    }
  }

  lemma HighAfterEnqueue(s: State, id: nat)
    requires HighInv(s) && StreamEnabled(s, EnqueueSentinel(id))
    ensures HighInv(StreamNext(s, EnqueueSentinel(id)))
  {
    var s', high := StreamNext(s, EnqueueSentinel(id)), s.worker.high;
    var work, rest := InWork(s.worker), if s.stream.dispatching then s.stream.channel else [];
    assert InWork(s'.worker) == work + [Write(id)];
    MarkedAppend(work, rest, high);
    MarkedAppend(work, [Write(id)], high);
    MarkedAppend(work + [Write(id)], rest, high);
  }

  lemma HighAfterStream(s: State, step: StreamStep)
    requires ServerInv(s.server) && GapInv(s) && HighInv(s) && FreshInv(s) && HeardInv(s)
    requires StreamEnabled(s, step) && !s.lost && !StreamNext(s, step).lost
    ensures HighInv(StreamNext(s, step))
  {
    var s' := StreamNext(s, step);
    match step
    case Dispatch => HighAfterDispatch(s);
    case DispatchFail =>
      MarkedAppend(InWork(s.worker), s.stream.channel, s.worker.high);
      assert InFlight(s') == InWork(s.worker);
    case EnqueueSentinel(id) => HighAfterEnqueue(s, id);
    case Reconnect => assert InFlight(s') == InFlight(s);
    case Listen => assert InFlight(s') == InFlight(s);
    case _ =>
      if Sends(s, step) {
        HighAfterRead(s, step);
      } else {
        HighAfterUndecoded(s, step);
      }
  }

  lemma HighAfterWorker(s: State, step: WorkerStep)
    requires GapInv(s) && HighInv(s) && WorkerEnabled(s, step)
    ensures HighInv(WorkerNext(s, step))
  {
    match step
    case Take(available, size) => TakeFlow(s, available, size);
    case CommitBatch => GapAfterCommitBatch(s);
    case FailBatch(_) => assert InFlight(WorkerNext(s, step)) == InFlight(s);
    case CommitUnseen => assert InFlight(WorkerNext(s, step)) == InFlight(s);
    case Settle => HighAfterSettle(s);
  }

  // ----- the floor under the stream

  lemma FloorAfterRead(s: State, step: StreamStep)
    requires GapInv(s) && FloorInv(s) && ServerInv(s.server) && StreamEnabled(s, step)
    requires Sends(s, step)
    ensures FloorInv(StreamNext(s, step))
  {
    var s', w, floor, challenges := StreamNext(s, step), s.worker, s.worker.floor, s.server.challenges;
    var t := s'.stream.channel[|s.stream.channel|];
    AppendFlow(s, s', t);
    OrderedAppend(InFlight(s), [t], floor, w.applied, challenges);
    FloorEndAppend(InFlight(s), [t], floor);
    OneTask(t, FloorEnd(InFlight(s), floor), End(InFlight(s), w.applied), challenges);
  }

  lemma DispatchedOrder(s: State)
    requires FloorInv(s) && StreamEnabled(s, Dispatch)
    ensures var work, t, rest := InWork(s.worker), s.stream.channel[0], s.stream.channel[1..];
            var floor, at := FloorEnd(work, s.worker.floor), End(work, s.worker.applied);
            && Ordered(work, s.worker.floor, s.worker.applied, s.server.challenges)
            && Ordered([t], floor, at, s.server.challenges)
            && Ordered(rest, FloorEnd([t], floor), End([t], at), s.server.challenges)
            && FloorEnd(rest, FloorEnd([t], floor)) == s.stream.since
  {
    var work, t, rest := InWork(s.worker), s.stream.channel[0], s.stream.channel[1..];
    var floor, at, challenges := s.worker.floor, s.worker.applied, s.server.challenges;
    DispatchFlow(s);
    OrderedAppend(work + [t], rest, floor, at, challenges);
    OrderedAppend(work, [t], floor, at, challenges);
    FloorEndAppend(work + [t], rest, floor);
    FloorEndAppend(work, [t], floor);
    GaplessAppend(work, [t], at, 0);
  }

  lemma FloorAfterDispatchListening(s: State)
    requires FloorInv(s) && StreamEnabled(s, Dispatch) && s.stream.listening && !s.stream.channel[0].Write?
    ensures FloorInv(StreamNext(s, Dispatch))
  {
    var s', floor := StreamNext(s, Dispatch), s.worker.floor;
    var work, t := InWork(s.worker), s.stream.channel[0];
    DispatchFlow(s);
    assert InFlight(s') == InFlight(s);
    DispatchedOrder(s);
    assert InWork(s'.worker) == work + [t];
    FloorEndAppend(work, [t], floor);
    OneTask(t, FloorEnd(work, floor), End(work, s.worker.applied), s.server.challenges);
  }

  lemma FloorAfterDispatchSentinel(s: State)
    requires FloorInv(s) && StreamEnabled(s, Dispatch) && s.stream.channel[0].Write?
    ensures FloorInv(StreamNext(s, Dispatch))
  {
    var s', floor := StreamNext(s, Dispatch), s.worker.floor;
    var work, t, rest := InWork(s.worker), s.stream.channel[0], s.stream.channel[1..];
    DispatchFlow(s);
    assert work + [] + rest == work + rest;
    DispatchedOrder(s);
    OneTask(t, FloorEnd(work, floor), End(work, s.worker.applied), s.server.challenges);
    OrderedAppend(work, rest, floor, s.worker.applied, s.server.challenges);
    FloorEndAppend(work, rest, floor);
  }

  lemma FloorAfterUndecoded(s: State, step: StreamStep)
    requires FloorInv(s) && FreshInv(s) && HeardInv(s) && StreamEnabled(s, step) && !StreamNext(s, step).lost
    requires (step.ReadRow? || step.ReadXid?) && !Sends(s, step)
    ensures FloorInv(StreamNext(s, step))
  {
    var s' := StreamNext(s, step);
    assert InFlight(s) == [] && InFlight(s') == [];
    assert InWork(s.worker) == [] && InWork(s'.worker) == [];
  }

  /** Swapping a batch for what is left of it leaves the floors behind it alone. */
  lemma LeftoverFloor(tasks: seq<Task>, rest: seq<Task>, floor: nat)
    ensures FloorEnd(Leftover(tasks) + rest, floor) == FloorEnd(tasks + rest, floor)
  {
    LeftoverMarker(tasks);
    LastMarkerAppend(tasks, rest);
    LastMarkerAppend(Leftover(tasks), rest);
  }

  lemma FloorAfterCommitBatch(s: State)
    requires FloorInv(s) && WorkerEnabled(s, CommitBatch)
    ensures FloorInv(WorkerNext(s, CommitBatch))
  {
    var s', w, challenges := WorkerNext(s, CommitBatch), s.worker, s.server.challenges;
    var tasks, left := w.hand.tasks, Leftover(w.hand.tasks);
    var rest := w.queue + if s.stream.dispatching then s.stream.channel else [];
    assert InFlight(s) == tasks + rest && InFlight(s') == left + rest;
    OrderedAppend(tasks, rest, w.floor, w.applied, challenges);
    OrderedEnds(tasks, w.floor, w.applied, challenges);
    LeftoverOrdered(tasks, w.floor, w.applied, challenges);
    LeftoverNoRows(tasks);
    RowlessEnds(left, s'.worker.applied, 0);
    LeftoverMarker(tasks);
    OrderedAppend(left, rest, w.floor, s'.worker.applied, challenges);
    LeftoverFloor(tasks, rest, w.floor);
    LeftoverFloor(tasks, w.queue, w.floor);
  }

  lemma LeftoverMarker(tasks: seq<Task>)
    ensures LastMarker(Leftover(tasks)) == LastMarker(tasks)
  {
    var m := if LastMarker(tasks).Some? then [Complete(LastMarker(tasks).value)] else [];
    var w := if Writes(tasks) != [] then [Write(Writes(tasks)[0])] else [];
    LastMarkerAppend(m, w);
  }

  lemma FloorAfterSettle(s: State)
    requires GapInv(s) && FloorInv(s) && WorkerEnabled(s, Settle)
    ensures FloorInv(WorkerNext(s, Settle))
  {
    var s', w, floor, challenges := WorkerNext(s, Settle), s.worker, s.worker.floor, s.server.challenges;
    var tasks := w.hand.tasks;
    var rest := w.queue + if s.stream.dispatching then s.stream.channel else [];
    assert InFlight(s) == tasks + rest && InFlight(s') == rest;
    RowlessEnds(tasks, w.applied, w.high);
    OrderedAppend(tasks, rest, floor, w.applied, challenges);
    OrderedEnds(tasks, floor, w.applied, challenges);
    assert s'.worker.floor == FloorEnd(tasks, floor);
    FloorEndAppend(tasks, rest, floor);
    FloorEndAppend(tasks, w.queue, floor);
    assert InWork(s'.worker) == w.queue;
    forall id | id in s'.worker.ran
      ensures id in challenges && challenges[id] <= s'.worker.floor
    {
      if id !in w.ran {
        SentinelsBelowFloor(tasks, floor, w.applied, challenges, id);
      }
    }
  }

  lemma FloorAfterEnqueue(s: State, id: nat)
    requires FloorInv(s) && StreamEnabled(s, EnqueueSentinel(id))
    ensures FloorInv(StreamNext(s, EnqueueSentinel(id)))
  {
    var s', at := StreamNext(s, EnqueueSentinel(id)), s.worker.applied;
    var floor, challenges := s.worker.floor, s.server.challenges;
    var work, rest := InWork(s.worker), if s.stream.dispatching then s.stream.channel else [];
    assert InWork(s'.worker) == work + [Write(id)];
    OrderedAppend(work, rest, floor, at, challenges);
    OrderedAppend(work, [Write(id)], floor, at, challenges);
    OrderedAppend(work + [Write(id)], rest, floor, at, challenges);
    GaplessAppend(work, [Write(id)], at, 0);
    LastMarkerAppend(work, [Write(id)]);
    LastMarkerAppend(work, rest);
    LastMarkerAppend(work + [Write(id)], rest);
  }

  lemma FloorAfterChallenge(s: State, id: nat)
    requires FloorInv(s) && ServerEnabled(s, WriteChallenge(id))
    ensures FloorInv(ServerNext(s, WriteChallenge(id)))
  {
    var s' := ServerNext(s, WriteChallenge(id));
    assert InFlight(s') == InFlight(s);
    OrderedGrows(InFlight(s), s.worker.floor, s.worker.applied, s.server.challenges, id, |s.server.log|);
  }

  lemma FloorAfterDispatchFail(s: State)
    requires FloorInv(s) && StreamEnabled(s, DispatchFail)
    ensures FloorInv(StreamNext(s, DispatchFail))
  {
    var s', w := StreamNext(s, DispatchFail), s.worker;
    OrderedAppend(InWork(w), s.stream.channel, w.floor, w.applied, s.server.challenges);
    assert s'.worker == w && InFlight(s') == InWork(w);
  }

  lemma FloorAfterReconnect(s: State)
    requires GapInv(s) && FloorInv(s) && !StreamNext(s, Reconnect).fellBack
    ensures FloorInv(StreamNext(s, Reconnect))
  {
    assert InFlight(StreamNext(s, Reconnect)) == InFlight(s);
  }

  lemma FloorAfterListen(s: State)
    requires FloorInv(s)
    ensures FloorInv(s.(stream := s.stream.(listening := true)))
  {
    assert InFlight(s.(stream := s.stream.(listening := true))) == InFlight(s);
  }

  lemma FloorAfterStream(s: State, step: StreamStep)
    requires ServerInv(s.server) && GapInv(s) && FloorInv(s) && FreshInv(s) && HeardInv(s) && StreamEnabled(s, step)
    requires !s.lost && !StreamNext(s, step).lost && !StreamNext(s, step).fellBack
    ensures FloorInv(StreamNext(s, step))
  {
    match step
    case Dispatch =>
      if s.stream.channel[0].Write? {
        FloorAfterDispatchSentinel(s);
      } else {
        FloorAfterDispatchListening(s);
      }
    case DispatchFail => FloorAfterDispatchFail(s);
    case EnqueueSentinel(id) => FloorAfterEnqueue(s, id);
    case Reconnect => FloorAfterReconnect(s);
    case Listen => FloorAfterListen(s);
    case _ =>
      if Sends(s, step) {
        FloorAfterRead(s, step);
      } else {
        FloorAfterUndecoded(s, step);
      }
  }

  lemma FloorAfterWorker(s: State, step: WorkerStep)
    requires GapInv(s) && FloorInv(s) && WorkerEnabled(s, step)
    ensures FloorInv(WorkerNext(s, step))
  {
    match step
    case Take(available, size) => TakeFlow(s, available, size);
    case CommitBatch => FloorAfterCommitBatch(s);
    case FailBatch(_) => assert InFlight(WorkerNext(s, step)) == InFlight(s);
    case CommitUnseen => assert InFlight(WorkerNext(s, step)) == InFlight(s);
    case Settle => FloorAfterSettle(s);
  }

  // ----- the ghost table

  /** What the batches in hand refer to is in the log. */
  lemma {:induction false} GaplessInLog(tasks: seq<Task>, at: nat, n: nat)
    requires Gapless(tasks, at, n)
    ensures InLog(tasks, n)
  {
    if tasks != [] {
      GaplessInLog(tasks[1..], if tasks[0].Dml? then tasks[0].pos + 1 else at, n);
      assert forall i | 1 <= i < |tasks| :: tasks[i] == tasks[1..][i - 1];
    }
  }

  lemma KeyOkWeaken(server: Server, from: nat, from': nat, g: Table, covered: bool, covered': bool, k: Key)
    requires KeyOk(server.init, server.log, from, g, covered, k)
    requires from' <= from && (covered' ==> covered)
    ensures KeyOk(server.init, server.log, from', g, covered', k)
  {
  }

  /** A batch without key-changing updates does the same on every attempt. */
  lemma {:induction false} RetryIsHarmless(g: Table, log: seq<Change>, tasks: seq<Task>)
    requires InLog(tasks, |log|) && !MovesAKey(log, tasks)
    ensures ApplyTasks(g, log, tasks, true) == ApplyTasks(g, log, tasks, false)
    decreases |tasks|
  {
    if tasks != [] {
      var rest := tasks[1..];
      assert forall i | 0 <= i < |rest| :: rest[i] == tasks[i + 1];
      assert !MovesAKey(log, rest);
      RetryIsHarmless(if tasks[0].Dml? then Apply(g, log[tasks[0].pos]) else g, log, rest);
    }
  }

  lemma ApplyFirst(g: Table, log: seq<Change>, tasks: seq<Task>)
    requires InLog(tasks, |log|) && tasks != []
    ensures InLog(tasks[1..], |log|)
    ensures tasks[0].Dml? ==> tasks[0].pos < |log|
    ensures ApplyTasks(g, log, tasks, false) ==
            ApplyTasks(if tasks[0].Dml? then Apply(g, log[tasks[0].pos]) else g, log, tasks[1..], false)
  {
  }

  /**
   Replaying one change from a ghost that is not behind `low`: back to the change, or
   no further than it was.
   */
  lemma KeyOkApplyOne(server: Server, low: nat, p: nat, g: Table, covered: bool, k: Key)
    requires ServerInv(server) && p < |server.log| && KeyOk(server.init, server.log, low, g, covered, k)
    ensures KeyOk(server.init, server.log, if p <= low then p + 1 else low, Apply(g, server.log[p]), covered, k)
  {
    if p <= low {
      KeyOkWeaken(server, low, p, g, covered, covered, k);
      KeyOkApply(server.init, server.log, p, g, covered, k);
    } else {
      KeyOkAhead(server.init, server.log, low, g, covered, k, p);
    }
  }

  /**
   Replaying a gap-free batch brings a key's invariant to the batch's end, also over a
   ghost that the batch was replayed on before.
   */
  lemma {:induction false} KeyOkApplyTasks(server: Server, low: nat, at: nat, g: Table, covered: bool, k: Key,
                                           tasks: seq<Task>)
    requires ServerInv(server) && Gapless(tasks, at, |server.log|) && InLog(tasks, |server.log|)
    requires Min(at, End(tasks, at)) <= low && KeyOk(server.init, server.log, low, g, covered, k)
    ensures KeyOk(server.init, server.log, End(tasks, at), ApplyTasks(g, server.log, tasks, false), covered, k)
    decreases |tasks|
  {
    if tasks == [] {
      KeyOkWeaken(server, low, at, g, covered, covered, k);
    } else {
      ApplyFirst(g, server.log, tasks);
      if tasks[0].Dml? {
        var p := tasks[0].pos;
        KeyOkApplyOne(server, low, p, g, covered, k);
        KeyOkApplyTasks(server, if p <= low then p + 1 else low, p + 1, Apply(g, server.log[p]), covered, k,
                        tasks[1..]);
      } else {
        KeyOkApplyTasks(server, low, at, g, covered, k, tasks[1..]);
      }
    }
  }

  /** Committing the batch in hand brings every key to the batch's end. */
  lemma KeyAfterBatch(s: State, k: Key)
    requires Inv(s) && !s.lost && WorkerEnabled(s, CommitBatch) && SameRebuilt(s)
    ensures var w := s.worker;
            KeyOk(s.server.init, s.server.log, End(w.hand.tasks, w.applied),
                  ApplyTasks(s.shadow, s.server.log, w.hand.tasks, w.hand.rebuilt), Secured(s, k), k)
  {
    var w, n := s.worker, |s.server.log|;
    var rest := w.queue + if s.stream.dispatching then s.stream.channel else [];
    assert InFlight(s) == w.hand.tasks + rest;
    GaplessAppend(w.hand.tasks, rest, w.applied, n);
    assert KeyOk(s.server.init, s.server.log, Low(w), s.shadow, Secured(s, k), k);
    KeyOkApplyTasks(s.server, Low(w), w.applied, s.shadow, Secured(s, k), k, w.hand.tasks);
  }

  lemma KeyAfterCommitBatch(s: State, k: Key)
    requires Inv(s) && !s.lost && WorkerEnabled(s, CommitBatch) && !WorkerNext(s, CommitBatch).lost
    ensures var s' := WorkerNext(s, CommitBatch);
            KeyOk(s.server.init, s.server.log, Low(s'.worker), s'.shadow, Secured(s', k), k)
  {
    KeyAfterBatch(s, k);
  }

  /** A commit whose call failed leaves the ghost where the batch, tried again, finds it in order. */
  lemma KeyAfterCommitUnseen(s: State, k: Key)
    requires Inv(s) && !s.lost && WorkerEnabled(s, CommitUnseen) && !WorkerNext(s, CommitUnseen).lost
    ensures var s' := WorkerNext(s, CommitUnseen);
            KeyOk(s.server.init, s.server.log, Low(s'.worker), s'.shadow, Secured(s', k), k)
  {
    KeyAfterBatch(s, k);
    var s', at := WorkerNext(s, CommitUnseen), End(s.worker.hand.tasks, s.worker.applied);
    KeyOkWeaken(s.server, at, Low(s'.worker), s'.shadow, Secured(s, k), Secured(s', k), k);
  }

  /** The ghost is not behind the floor. */
  lemma FloorBelowLow(s: State)
    requires GapInv(s) && FloorInv(s)
    ensures s.worker.floor <= Low(s.worker) <= |s.server.log|
  {
    var w, challenges := s.worker, s.server.challenges;
    if w.hand.Holding? {
      var rest := w.queue + if s.stream.dispatching then s.stream.channel else [];
      assert InFlight(s) == w.hand.tasks + rest;
      OrderedAppend(w.hand.tasks, rest, w.floor, w.applied, challenges);
      OrderedEnds(w.hand.tasks, w.floor, w.applied, challenges);
    }
  }

  /** A key within the chunk's reach that no earlier chunk covered lies in the chunk. */
  lemma ChunkReaches(c: Copy, end: Key, k: Key)
    requires c.range.Some? && c.range.value.Bounds?
    requires !UpTo(c.copiedTo, k) && !OutOf(c.range, k) && Leq(k, end)
    ensures var (start, inclusive) := ChunkStart(c); Between(start, inclusive, end, k)
  {
    if c.copiedTo.Some? {
      NotLeqIsGreater(k, c.copiedTo.value);
    } else {
      NotLeqIsGreater(c.range.value.min, k);
    }
  }

  lemma KeyAfterCopyChunk(s: State, end: Key, again: bool, k: Key)
    requires Inv(s) && !s.lost && CopyEnabled(s, CopyChunk(end, again))
    ensures var s' := CopyNext(s, CopyChunk(end, again));
            KeyOk(s.server.init, s.server.log, Low(s'.worker), s'.shadow, Secured(s', k), k)
  {
    var s', server, at := CopyNext(s, CopyChunk(end, again)), s.server, Low(s.worker);
    var (start, inclusive) := ChunkStart(s.copy);
    assert KeyOk(server.init, server.log, at, s.shadow, Secured(s, k), k);
    if k in s.shadow || Between(start, inclusive || again, end, k) {
      KeyOkCopied(server.init, server.log, at, s.shadow, Secured(s, k), k, s'.shadow);
    } else {
      assert Lookup(s'.shadow, k) == Lookup(s.shadow, k);
      if Secured(s', k) && !Secured(s, k) {
        ChunkReaches(s.copy, end, k);
        assert false;
      }
      KeyOkSame(server, at, s.shadow, s'.shadow, Secured(s, k), k);
    }
  }

  lemma KeyAfterCopyUnseen(s: State, end: Key, again: bool, k: Key)
    requires Inv(s) && !s.lost && CopyEnabled(s, CopyUnseen(end, again))
    ensures var s' := CopyNext(s, CopyUnseen(end, again));
            KeyOk(s.server.init, s.server.log, Low(s'.worker), s'.shadow, Secured(s', k), k)
  {
    var s', server, at := CopyNext(s, CopyUnseen(end, again)), s.server, Low(s.worker);
    assert KeyOk(server.init, server.log, at, s.shadow, Secured(s, k), k);
    if k in s'.shadow {
      KeyOkCopied(server.init, server.log, at, s.shadow, Secured(s, k), k, s'.shadow);
    } else {
      KeyOkSame(server, at, s.shadow, s'.shadow, Secured(s, k), k);
    }
  }

  lemma KeyOkSame(server: Server, from: nat, g: Table, g': Table, covered: bool, k: Key)
    requires KeyOk(server.init, server.log, from, g, covered, k) && Lookup(g, k) == Lookup(g', k)
    ensures KeyOk(server.init, server.log, from, g', covered, k)
  {
    if covered || k in g {
      var p: nat :| from <= p <= |server.log| && AsOf(server.init, server.log, p, g, k);
      assert AsOf(server.init, server.log, p, g', k);
    }
  }

  lemma KeyAfterReadRange(s: State, range: Range, k: Key)
    requires Inv(s) && !s.lost && CopyEnabled(s, ReadRange(range))
    ensures var s' := CopyNext(s, ReadRange(range));
            KeyOk(s.server.init, s.server.log, Low(s'.worker), s'.shadow, Secured(s', k), k)
  {
    var server, at := s.server, Low(s.worker);
    assert KeyOk(server.init, server.log, at, s.shadow, Secured(s, k), k);
    if OutOf(Some(range), k) {
      if range.Bounds? && k in Current(server) {
        NotLeqIsGreater(range.min, k);
        NotLeqIsGreater(k, range.max);
        assert false;
      }
      KeyOkAbsent(server.init, server.log, at, s.shadow, Secured(s, k), k);
    }
  }

  lemma KeyAfterFinishCopy(s: State, moved: Option<Key>, k: Key)
    requires Inv(s) && !s.lost && CopyEnabled(s, FinishCopy(moved))
    ensures var s' := CopyNext(s, FinishCopy(moved));
            KeyOk(s.server.init, s.server.log, Low(s'.worker), s'.shadow, Secured(s', k), k)
  {
    var server, at := s.server, Low(s.worker);
    assert KeyOk(server.init, server.log, at, s.shadow, Secured(s, k), k);
    if !Secured(s, k) {
      NotLeqIsGreater(k, s.copy.range.value.max);
      ChunkReaches(s.copy, s.copy.range.value.max, k);
      KeyOkAbsent(server.init, server.log, at, s.shadow, false, k);
    }
  }

  lemma KeyAfterStream(s: State, step: StreamStep, k: Key)
    requires FreshInv(s) && KeysInv(s) && StreamEnabled(s, step) && !s.lost && !StreamNext(s, step).lost
    ensures var s' := StreamNext(s, step);
            KeyOk(s'.server.init, s'.server.log, Low(s'.worker), s'.shadow, Secured(s', k), k)
  {
    assert KeyOk(s.server.init, s.server.log, Low(s.worker), s.shadow, Secured(s, k), k);
  }

  lemma KeyAfterCopy(s: State, step: CopyStep, k: Key)
    requires Inv(s) && !s.lost && CopyEnabled(s, step)
    ensures var s' := CopyNext(s, step);
            KeyOk(s'.server.init, s'.server.log, Low(s'.worker), s'.shadow, Secured(s', k), k)
  {
    match step
    case ReadRange(range) => KeyAfterReadRange(s, range, k);
    case CopyChunk(end, again) => KeyAfterCopyChunk(s, end, again, k);
    case CopyUnseen(end, again) => KeyAfterCopyUnseen(s, end, again, k);
    case FinishCopy(moved) => KeyAfterFinishCopy(s, moved, k);
  }

  // ----- all runs

  lemma InvStart(init: Table)
    ensures Inv(Start(init))
  {
    var s := Start(init);
    assert InFlight(s) == [];
  }

  lemma InvAfterServer(s: State, step: ServerStep)
    requires Inv(s) && ServerEnabled(s, step)
    ensures Inv(ServerNext(s, step))
  {
    var s', server := ServerNext(s, step), s.server;
    assert InFlight(s') == InFlight(s);
    if !s.lost {
      GaplessGrows(InFlight(s), s.worker.applied, |server.log|, |s'.server.log|);
      forall k ensures KeyOk(s'.server.init, s'.server.log, Low(s'.worker), s'.shadow, Secured(s', k), k) {
        assert KeyOk(server.init, server.log, Low(s.worker), s.shadow, Secured(s, k), k);
        KeyOkGrows(server.init, server.log, s'.server.log, Low(s.worker), s.shadow, Secured(s, k), k);
      }
      if !s.fellBack && step.WriteChallenge? {
        FloorAfterChallenge(s, step.id);
      }
    }
  }

  lemma HeardAfterStream(s: State, step: StreamStep)
    requires FreshInv(s) && HeardInv(s) && StreamEnabled(s, step) && !StreamNext(s, step).lost
    ensures HeardInv(StreamNext(s, step))
  {
    if step.Dispatch? || step.DispatchFail? || step.EnqueueSentinel? {
      HeardAfterMoving(s, step);
    } else {
      HeardAfterReading(s, step);
    }
  }

  lemma InvAfterStream(s: State, step: StreamStep)
    requires Inv(s) && StreamEnabled(s, step)
    ensures Inv(StreamNext(s, step))
  {
    var s' := StreamNext(s, step);
    if !s'.lost {
      FreshAfterStream(s, step);
      HeardAfterStream(s, step);
      GapAfterStream(s, step);
      HighAfterStream(s, step);
      forall k ensures KeyOk(s'.server.init, s'.server.log, Low(s'.worker), s'.shadow, Secured(s', k), k) {
        KeyAfterStream(s, step, k);
      }
      if !s'.fellBack {
        FloorAfterStream(s, step);
      }
    }
  }

  lemma InvAfterWorker(s: State, step: WorkerStep)
    requires Inv(s) && WorkerEnabled(s, step)
    ensures Inv(WorkerNext(s, step))
  {
    var s' := WorkerNext(s, step);
    if !s'.lost {
      HeardAfterWorker(s, step);
      GapAfterWorker(s, step);
      HighAfterWorker(s, step);
      forall k ensures KeyOk(s'.server.init, s'.server.log, Low(s'.worker), s'.shadow, Secured(s', k), k) {
        assert KeyOk(s.server.init, s.server.log, Low(s.worker), s.shadow, Secured(s, k), k);
        if step.CommitBatch? {
          KeyAfterCommitBatch(s, k);
        } else if step.CommitUnseen? {
          KeyAfterCommitUnseen(s, k);
        } else {
          KeyOkWeaken(s.server, Low(s.worker), Low(s'.worker), s.shadow, Secured(s, k), Secured(s', k), k);
        }
      }
      if !s'.fellBack {
        FloorAfterWorker(s, step);
      }
    }
  }

  lemma InvAfterCopy(s: State, step: CopyStep)
    requires Inv(s) && CopyEnabled(s, step)
    ensures Inv(CopyNext(s, step))
  {
    var s' := CopyNext(s, step);
    assert InFlight(s') == InFlight(s);
    if !s.lost {
      forall k ensures KeyOk(s'.server.init, s'.server.log, Low(s'.worker), s'.shadow, Secured(s', k), k) {
        KeyAfterCopy(s, step, k);
      }
    }
  }

  lemma InvAfterProcess(s: State, step: ProcessStep)
    requires Inv(s) && ProcessEnabled(s, step)
    ensures Inv(ProcessNext(s, step))
  {
    var s' := ProcessNext(s, step);
    assert InFlight(s') == if step.Resume? then [] else InFlight(s);
    if !s'.lost {
      if !s.fellBack {
        FloorBelowLow(s);
      }
      forall k ensures KeyOk(s'.server.init, s'.server.log, Low(s'.worker), s'.shadow, Secured(s', k), k) {
        KeyOkWeaken(s.server, Low(s.worker), Low(s'.worker), s.shadow, Secured(s, k), Secured(s', k), k);
      }
    }
  }

  lemma InvKept(s: State, step: Step)
    requires Inv(s) && Enabled(s, step)
    ensures Inv(Next(s, step))
  {
    match step
    case ByServer(x) => InvAfterServer(s, x);
    case ByStream(x) => InvAfterStream(s, x);
    case ByWorker(x) => InvAfterWorker(s, x);
    case ByCopy(x) => InvAfterCopy(s, x);
    case ByProcess(x) => InvAfterProcess(s, x);
  }

  lemma {:induction false} InvRun(s: State, steps: seq<Step>)
    requires Inv(s) && IsRun(s, steps)
    ensures Inv(Final(s, steps))
    decreases |steps|
  {
    if steps != [] {
      InvKept(s, steps[0]);
      InvRun(Next(s, steps[0]), steps[1..]);
    }
  }
}
