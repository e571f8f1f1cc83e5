/**
 What the replay alone can do to the ghost while nothing is written to the original:
 whether it can bring the ghost to where it differs from the original.
 */
module ReplayAlone {
  import opened Wrappers
  import opened Keys
  import opened Replay
  import opened Batching
  import opened Flow
  import opened Protocol
  import opened ProtocolProof
  import opened ProtocolTheorems

  /** A careful run without a write and without a crash goes from `s` to `t`. */
  ghost predicate Replays(s: State, t: State) {
    exists steps ::
      && IsRun(s, steps) && CarefulRun(s, steps) && (forall i | 0 <= i < |steps| :: Undisturbed(steps[i]))
      && Final(s, steps) == t
  }

  lemma ReplaysNowhere(s: State)
    ensures Replays(s, s)
  {
    assert IsRun(s, []) && CarefulRun(s, []) && Final(s, []) == s;
  }

  lemma {:induction false} CarefulAppend(s: State, steps: seq<Step>, step: Step)
    requires IsRun(s, steps) && CarefulRun(s, steps)
    requires Enabled(Final(s, steps), step) && Careful(Final(s, steps), step)
    ensures IsRun(s, steps + [step]) && CarefulRun(s, steps + [step])
    ensures Final(s, steps + [step]) == Next(Final(s, steps), step)
    decreases |steps|
  {
    if steps == [] {
      assert steps + [step] == [step];
      assert IsRun(Next(s, step), [step][1..]);
    } else {
      assert (steps + [step])[0] == steps[0] && (steps + [step])[1..] == steps[1..] + [step];
      CarefulAppend(Next(s, steps[0]), steps[1..], step);
    }
  }

  lemma ReplaysOn(s0: State, s: State, step: Step)
    requires Replays(s0, s) && Enabled(s, step) && Careful(s, step) && Undisturbed(step)
    ensures Replays(s0, Next(s, step))
  {
    var steps :|
      && IsRun(s0, steps) && CarefulRun(s0, steps) && (forall i | 0 <= i < |steps| :: Undisturbed(steps[i]))
      && Final(s0, steps) == s;
    CarefulAppend(s0, steps, step);
    assert forall i | 0 <= i < |steps + [step]| :: Undisturbed((steps + [step])[i]);
  }

  /** The replay can bring the ghost to where it differs from the original as that is now. */
  ghost predicate CanDiffer(s: State) {
    exists t :: Replays(s, t) && t.shadow != Current(t.server)
  }

  lemma DiffersNow(s: State)
    requires s.shadow != Current(s.server)
    ensures CanDiffer(s)
  {
    ReplaysNowhere(s);
  }

  /** Once the sentinel of a challenge at the end of the log ran, it cannot. */
  lemma AnsweredCannotDiffer(s: State, id: nat)
    requires Locked(s, id)
    ensures !CanDiffer(s)
  {
    forall t | Replays(s, t) ensures t.shadow == Current(t.server) {
      var steps :|
        && IsRun(s, steps) && CarefulRun(s, steps) && (forall i | 0 <= i < |steps| :: Undisturbed(steps[i]))
        && Final(s, steps) == t;
      LockedRun(s, steps, id);
      EqualOnceAnswered(t, id);
    }
  }

  // ----- exactly when it can

  /** The replay did well, and the row copy is over. */
  ghost predicate Sound(s: State) {
    Inv(s) && Unharmed(s) && s.copy.finished
  }

  /** Replaying change `p` once more leaves the original, as it is now, alone. */
  predicate NoChange(s: State, p: nat)
    requires p < |s.server.log|
  {
    Apply(Current(s.server), s.server.log[p]) == Current(s.server)
  }

  /** Where the reader may go on: a careful reconnect goes back to the last transaction end. */
  function Reread(stream: Stream): nat {
    if stream.lastTrx.Some? || stream.since == stream.initial then stream.since else stream.next
  }

  /** Change `p` may still come to the worker. */
  predicate Ahead(s: State, p: nat) {
    && p < |s.server.log|
    && (Dml(p) in s.worker.queue || (s.stream.dispatching && (Dml(p) in s.stream.channel || Reread(s.stream) <= p)))
  }

  /** The batch in hand cannot be retried carefully. */
  predicate Stuck(s: State) {
    s.worker.hand.Holding? && InLog(s.worker.hand.tasks, |s.server.log|) && !SameRebuilt(s)
  }

  /** The batch in hand would change the original as it is now. */
  predicate HandChanges(s: State) {
    && s.worker.hand.Holding? && InLog(s.worker.hand.tasks, |s.server.log|)
    && ApplyTasks(Current(s.server), s.server.log, s.worker.hand.tasks, false) != Current(s.server)
  }

  /** Some change on its way to the ghost would change the original as it is now. */
  predicate CanChange(s: State) {
    !Stuck(s) && (HandChanges(s) || exists p | 0 <= p < |s.server.log| :: Ahead(s, p) && !NoChange(s, p))
  }

  /** The ghost equals the original, and nothing on its way changes that. */
  predicate Calm(s: State) {
    s.shadow == Current(s.server) && !CanChange(s)
  }

  lemma {:induction false} NoChanges(server: Server, tasks: seq<Task>)
    requires InLog(tasks, |server.log|)
    requires forall i | 0 <= i < |tasks| :: tasks[i].Dml? ==>
               Apply(Current(server), server.log[tasks[i].pos]) == Current(server)
    ensures ApplyTasks(Current(server), server.log, tasks, false) == Current(server)
  {
    if tasks != [] {
      assert forall i | 0 <= i < |tasks[1..]| :: tasks[1..][i] == tasks[i + 1];
      NoChanges(server, tasks[1..]);
    }
  }

  lemma CalmByStream(s: State, step: StreamStep)
    requires Sound(s) && Calm(s) && StreamEnabled(s, step) && Careful(s, ByStream(step))
    ensures Calm(StreamNext(s, step))
  {
    var t := StreamNext(s, step);
    assert t.shadow == s.shadow && t.server == s.server && t.worker.hand == s.worker.hand;
    forall p | Ahead(t, p) ensures Ahead(s, p) {
      ComesFrom(s, step, p);
    }
  }

  /** No stream step puts a change ahead that was not ahead. */
  lemma ComesFrom(s: State, step: StreamStep, p: nat)
    requires Sound(s) && StreamEnabled(s, step) && Careful(s, ByStream(step)) && Ahead(StreamNext(s, step), p)
    ensures Ahead(s, p)
  {
  }

  lemma CalmByTake(s: State, available: nat, size: nat)
    requires Sound(s) && Calm(s) && WorkerEnabled(s, Take(available, size))
    ensures Calm(WorkerNext(s, Take(available, size)))
  {
    var t, queue := WorkerNext(s, Take(available, size)), s.worker.queue;
    var tasks := Batch(queue, available, size);
    if t.worker.hand.Holding? && InLog(tasks, |s.server.log|) {
      forall i | 0 <= i < |tasks| && tasks[i].Dml?
        ensures Apply(Current(s.server), s.server.log[tasks[i].pos]) == Current(s.server)
      {
        assert tasks[i] == queue[i];
        assert Ahead(s, tasks[i].pos);
      }
      NoChanges(s.server, tasks);
    }
    forall p | Ahead(t, p) ensures Ahead(s, p) {
    }
  }

  lemma CalmByCommit(s: State, step: WorkerStep)
    requires Sound(s) && Calm(s) && WorkerEnabled(s, step) && Careful(s, ByWorker(step))
    requires step.CommitBatch? || step.CommitUnseen?
    ensures Calm(WorkerNext(s, step))
  {
    var t := WorkerNext(s, step);
    assert t.shadow == Current(s.server);
    forall p | Ahead(t, p) ensures Ahead(s, p) {
    }
  }

  lemma CalmByWorker(s: State, step: WorkerStep)
    requires Sound(s) && Calm(s) && WorkerEnabled(s, step) && Careful(s, ByWorker(step))
    ensures Calm(WorkerNext(s, step))
  {
    match step
    case Take(available, size) => CalmByTake(s, available, size);
    case FailBatch(_) =>
      forall p | Ahead(WorkerNext(s, step), p) ensures Ahead(s, p) {
      }
    case Settle =>
      forall p | Ahead(WorkerNext(s, step), p) ensures Ahead(s, p) {
      }
    case _ => CalmByCommit(s, step);
  }

  lemma CalmKept(s: State, step: Step)
    requires Sound(s) && Calm(s) && Enabled(s, step) && Careful(s, step) && Undisturbed(step)
    ensures Sound(Next(s, step)) && Calm(Next(s, step))
  {
    InvKept(s, step);
    CarefulStepIsUnharmed(s, step);
    DoneKept(s, step);
    match step
    case ByStream(x) => CalmByStream(s, x);
    case ByWorker(x) => CalmByWorker(s, x);
    case _ => CalmByOthers(s, step);
  }

  lemma CalmSame(s: State, t: State)
    requires Calm(s) && t.shadow == s.shadow && t.worker == s.worker && t.stream == s.stream
    requires t.server.log == s.server.log && t.server.init == s.server.init
    ensures Calm(t)
  {
    assert Current(t.server) == Current(s.server);
    forall p | Ahead(t, p) ensures Ahead(s, p) {
    }
  }

  lemma CalmByOthers(s: State, step: Step)
    requires s.copy.finished && Calm(s) && Enabled(s, step) && Undisturbed(step) && !step.ByStream? && !step.ByWorker?
    ensures Calm(Next(s, step))
  {
    match step
    case ByServer(x) => CalmSame(s, ServerNext(s, x));
    case ByCopy(x) => CalmSame(s, CopyNext(s, x));
    case ByProcess(x) => CalmSame(s, ProcessNext(s, x));
    case _ =>
  }

  lemma {:induction false} CalmRun(s: State, steps: seq<Step>)
    requires Sound(s) && Calm(s) && IsRun(s, steps) && CarefulRun(s, steps)
    requires forall i | 0 <= i < |steps| :: Undisturbed(steps[i])
    ensures Calm(Final(s, steps))
    decreases |steps|
  {
    if steps != [] {
      CalmKept(s, steps[0]);
      assert forall i | 0 <= i < |steps[1..]| :: steps[1..][i] == steps[i + 1];
      CalmRun(Next(s, steps[0]), steps[1..]);
    }
  }

  // ----- how it does

  /** What the replay can do after a step, it can do before it. */
  lemma CanDifferBefore(s: State, step: Step)
    requires Enabled(s, step) && Careful(s, step) && Undisturbed(step) && CanDiffer(Next(s, step))
    ensures CanDiffer(s)
  {
    var t :| Replays(Next(s, step), t) && t.shadow != Current(t.server);
    var steps :|
      && IsRun(Next(s, step), steps) && CarefulRun(Next(s, step), steps)
      && (forall i | 0 <= i < |steps| :: Undisturbed(steps[i])) && Final(Next(s, step), steps) == t;
    var all := [step] + steps;
    assert all[0] == step && all[1..] == steps;
    assert IsRun(s, all) && CarefulRun(s, all) && Final(s, all) == t;
    assert forall i | 0 <= i < |all| :: Undisturbed(all[i]);
  }

  /** The batch in hand, or change `p` on its way, would change the original as it is now. */
  predicate Aims(s: State, p: nat) {
    !Stuck(s) && (HandChanges(s) || (Ahead(s, p) && !NoChange(s, p)))
  }

  /** Change `p` was read, and is not on its way any more. */
  predicate Passed(s: State, p: nat) {
    && !HandChanges(s) && p < s.stream.next
    && Dml(p) !in s.worker.queue && !(s.stream.dispatching && Dml(p) in s.stream.channel)
  }

  function HandWork(hand: Hand): nat {
    if hand.Idle? then 0 else if hand.Settling? then 1 else 2
  }

  function Work(s: State): nat {
    4 * |s.stream.channel| + 3 * |s.worker.queue| + HandWork(s.worker.hand)
  }

  /** The next step of a replay that takes one change at a time. */
  function Move(s: State, p: nat): Step {
    if s.worker.hand.Holding? then ByWorker(CommitBatch)
    else if s.worker.hand.Settling? then ByWorker(Settle)
    else if s.worker.queue != [] then ByWorker(Take(0, 1))
    else if s.stream.channel != [] then ByStream(Dispatch)
    else if p < s.stream.next then ByStream(Reconnect)
    else if s.stream.next in s.server.ends && s.stream.since < s.stream.next then ByStream(ReadXid)
    else ByStream(ReadRow)
  }

  /** The tables differ, or change `p` is nearer. */
  predicate Closer(s: State, t: State, p: nat) {
    t.server == s.server && (t.shadow != Current(t.server) || (Level(t) && Aims(t, p) && Nearer(s, t, p)))
  }

  predicate Nearer(s: State, t: State, p: nat) {
    || (!Passed(t, p) && Passed(s, p))
    || (Passed(t, p) == Passed(s, p) && t.stream.next > s.stream.next)
    || (Passed(t, p) == Passed(s, p) && t.stream.next == s.stream.next && t.stream.since > s.stream.since)
    || (Passed(t, p) == Passed(s, p) && t.stream.next == s.stream.next && t.stream.since == s.stream.since &&
        Work(t) < Work(s))
  }

  /** The reader is within the log, and nothing is on the ghost that should not be. */
  predicate Level(s: State) {
    s.stream.next <= |s.server.log| && s.stream.since <= |s.server.log| && s.shadow == Current(s.server)
  }

  lemma CommitCloser(s: State, p: nat)
    requires Level(s) && Aims(s, p) && s.worker.hand.Holding? && InLog(s.worker.hand.tasks, |s.server.log|)
    ensures WorkerEnabled(s, CommitBatch) && Careful(s, ByWorker(CommitBatch))
    ensures Closer(s, WorkerNext(s, CommitBatch), p)
  {
  }

  lemma SettleCloser(s: State, p: nat)
    requires Level(s) && Aims(s, p) && s.worker.hand.Settling?
    ensures Closer(s, WorkerNext(s, Settle), p)
  {
  }

  /** A single change in hand. */
  lemma OneInHand(s: State, p: nat)
    requires p < |s.server.log| && s.worker.hand == Holding([Dml(p)], false) && !NoChange(s, p)
    ensures HandChanges(s) && !Stuck(s)
  {
    var tasks := [Dml(p)];
    assert tasks[0] == Dml(p) && tasks[1..] == [] && InLog(tasks, |s.server.log|);
    assert ApplyTasks(Current(s.server), s.server.log, tasks, false) == Apply(Current(s.server), s.server.log[p]);
  }

  lemma TakeCloser(s: State, p: nat)
    requires Level(s) && Aims(s, p) && s.worker.hand.Idle? && s.worker.queue != []
    ensures Closer(s, WorkerNext(s, Take(0, 1)), p)
  {
    var t, queue := WorkerNext(s, Take(0, 1)), s.worker.queue;
    assert queue[1..1] == [] && Batch(queue, 0, 1) == [queue[0]];
    assert queue == [queue[0]] + queue[1..];
    assert t.stream == s.stream && t.server == s.server && t.shadow == s.shadow && t.worker.queue == queue[1..];
    if queue[0] == Dml(p) {
      OneInHand(t, p);
    } else {
      assert Ahead(t, p) && !Stuck(t);
    }
  }

  lemma DispatchCloser(s: State, p: nat)
    requires Level(s) && Aims(s, p) && s.stream.listening && s.worker.hand.Idle? && s.worker.queue == []
    requires s.stream.channel != []
    ensures s.stream.dispatching && Closer(s, StreamNext(s, Dispatch), p)
  {
    var t, channel := StreamNext(s, Dispatch), s.stream.channel;
    assert channel == [channel[0]] + channel[1..];
    assert t.server == s.server && t.shadow == s.shadow && t.worker.hand == s.worker.hand;
    assert t.stream.channel == channel[1..] && t.stream.dispatching && Reread(t.stream) == Reread(s.stream);
    assert t.worker.queue == if channel[0].Write? then [] else [channel[0]];
    assert Dml(p) in channel <==> Dml(p) in t.worker.queue || Dml(p) in t.stream.channel;
    assert Ahead(t, p) && Passed(t, p) == Passed(s, p);
  }

  /** Nothing is on its way to the worker. */
  predicate Drained(s: State) {
    s.worker.hand.Idle? && s.worker.queue == [] && s.stream.channel == []
  }

  lemma ReconnectCloser(s: State, p: nat)
    requires Level(s) && FloorInv(s) && Aims(s, p) && Drained(s) && p < s.stream.next
    ensures Careful(s, ByStream(Reconnect)) && Closer(s, StreamNext(s, Reconnect), p)
  {
  }

  lemma XidCloser(s: State, p: nat)
    requires Level(s) && Aims(s, p) && Drained(s) && s.stream.next <= p && StreamEnabled(s, ReadXid)
    ensures Closer(s, StreamNext(s, ReadXid), p)
  {
  }

  lemma RowCloser(s: State, p: nat)
    requires Level(s) && FloorInv(s) && Aims(s, p) && s.stream.listening && Drained(s) && s.stream.next <= p
    requires !StreamEnabled(s, ReadXid)
    ensures StreamEnabled(s, ReadRow) && Closer(s, StreamNext(s, ReadRow), p)
  {
    assert Dml(s.stream.next) in StreamNext(s, ReadRow).stream.channel;
  }

  lemma MoveCloser(s: State, p: nat)
    requires Sound(s) && Level(s) && Aims(s, p)
    ensures Enabled(s, Move(s, p)) && Careful(s, Move(s, p)) && Undisturbed(Move(s, p))
    ensures Closer(s, Next(s, Move(s, p)), p)
  {
    if s.worker.hand.Holding? {
      HeldInLog(s);
      CommitCloser(s, p);
    } else if s.worker.hand.Settling? {
      SettleCloser(s, p);
    } else if s.worker.queue != [] {
      TakeCloser(s, p);
    } else if s.stream.channel != [] {
      DispatchCloser(s, p);
    } else if p < s.stream.next {
      ReconnectCloser(s, p);
    } else if StreamEnabled(s, ReadXid) {
      XidCloser(s, p);
    } else {
      RowCloser(s, p);
    }
  }

  lemma {:induction false} ComesToDiffer(s: State, p: nat)
    requires Sound(s) && Level(s) && Aims(s, p)
    ensures CanDiffer(s)
    decreases Passed(s, p), |s.server.log| - s.stream.next, |s.server.log| - s.stream.since, Work(s)
  {
    var step := Move(s, p);
    MoveCloser(s, p);
    InvKept(s, step);
    CarefulStepIsUnharmed(s, step);
    DoneKept(s, step);
    if Next(s, step).shadow != Current(Next(s, step).server) {
      DiffersNow(Next(s, step));
    } else {
      ComesToDiffer(Next(s, step), p);
    }
    CanDifferBefore(s, step);
  }

  /**
   The replay alone can bring the ghost to where it differs from the original exactly
   when it differs now, or when the batch in hand or a change that may still come to the
   worker would change the original as it is now.
   */
  lemma DiffersExactlyWhen(s: State)
    requires Sound(s)
    ensures CanDiffer(s) <==> s.shadow != Current(s.server) || CanChange(s)
  {
    if s.shadow != Current(s.server) {
      DiffersNow(s);
    } else if CanChange(s) {
      if HandChanges(s) {
        ComesToDiffer(s, 0);
      } else {
        var p :| 0 <= p < |s.server.log| && Ahead(s, p) && !NoChange(s, p);
        ComesToDiffer(s, p);
      }
    } else {
      forall t | Replays(s, t) ensures t.shadow == Current(t.server) {
        var steps :|
          && IsRun(s, steps) && CarefulRun(s, steps) && (forall i | 0 <= i < |steps| :: Undisturbed(steps[i]))
          && Final(s, steps) == t;
        CalmRun(s, steps);
      }
    }
  }

  /** Everything logged was read to the end of a transaction and replayed. */
  predicate Replayed(s: State) {
    s.worker.applied == s.stream.next == s.stream.since == |s.server.log| && Rows(InFlight(s)) == []
  }

  lemma {:induction false} RowIsRow(tasks: seq<Task>, p: nat)
    requires Dml(p) in tasks
    ensures Rows(tasks) != []
  {
    if tasks[0] != Dml(p) {
      RowIsRow(tasks[1..], p);
    }
  }

  /** When everything logged is replayed, the replay cannot make the tables differ. */
  lemma ReplayedCannotDiffer(s: State)
    requires Sound(s) && Replayed(s)
    ensures !CanDiffer(s)
  {
    RowlessHand(s);
    CaughtUp(s);
    forall p | Ahead(s, p) ensures false {
      RowIsRow(InFlight(s), p);
    }
    DiffersExactlyWhen(s);
  }
}
