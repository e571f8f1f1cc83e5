/**
 The cut-over and the replay together: one machine whose writes are commits of the
 replay protocol and whose ghost is the protocol's ghost. Every run of it is a run
 of the cut-over machine, so what CutOver.dfy says about the ghost's rows when the
 sentinel is heard and afterwards follows from the protocol.
 */
module CutOverReplay {
  import opened Wrappers
  import C = CutOver
  import CP = CutOverProof
  import P = Protocol
  import PP = ProtocolProof
  import PT = ProtocolTheorems
  import R = Replay
  import RA = ReplayAlone

  type Table = P.Table

  /** `id` is the challenge that the current attempt wrote under its lock, `heard` the last one that was answered. */
  datatype Joint = Joint(cut: C.State, replay: P.State, id: Option<nat>, heard: Option<nat>)

  datatype Step =
    | CutOver(move: C.Step)
    | Challenge(id: nat)
    | Hear
    | Commit(changes: seq<P.Change>)
    | Process(step: P.Step)

  function Written(changes: seq<P.Change>): P.Step {
    P.ByServer(P.CommitChanges(changes))
  }

  /** A challenge and its sentinel are steps of their own. */
  ghost predicate Enabled(j: Joint, step: Step) {
    match step
    case CutOver(x) => C.Enabled(j.cut, x) && C.Rowless(j.cut, x)
    case Challenge(id) => j.cut.m.WriteChallenge? && P.ServerEnabled(j.replay, P.WriteChallenge(id))
    case Hear => j.cut.m.WaitEvents? && j.id.Some? && j.id.value in j.replay.worker.ran
    case Commit(changes) =>
      C.Enabled(j.cut, C.Write(j.cut.db.original)) && P.ServerEnabled(j.replay, P.CommitChanges(changes))
    case Process(x) => j.cut.h.swap.None? && P.Enabled(j.replay, x) && PT.Careful(j.replay, x) && PT.Undisturbed(x)
  }

  function Next(j: Joint, step: Step): Joint
    requires Enabled(j, step)
  {
    match step
    case CutOver(x) => j.(cut := C.Next(j.cut, x))
    case Challenge(id) =>
      j.(cut := j.cut.(m := C.WaitEvents, h := j.cut.h.(challengeWrites := j.cut.db.writes)),
         replay := P.ServerNext(j.replay, P.WriteChallenge(id)), id := Some(id))
    case Hear =>
      j.(cut := j.cut.(m := C.StartRename, h := j.cut.h.(synced := Some(j.cut.h.challengeWrites))), heard := j.id)
    case Commit(changes) =>
      var replay := P.ServerNext(j.replay, P.CommitChanges(changes));
      j.(cut := C.Next(j.cut, C.Write(P.Current(replay.server))), replay := replay)
    case Process(x) =>
      var replay := P.Next(j.replay, x);
      j.(cut := j.cut.(db := j.cut.db.(shadow := replay.shadow)), replay := replay)
  }

  ghost predicate IsRun(j: Joint, steps: seq<Step>)
    decreases |steps|
  {
    steps == [] || (Enabled(j, steps[0]) && IsRun(Next(j, steps[0]), steps[1..]))
  }

  ghost function Final(j: Joint, steps: seq<Step>): Joint
    requires IsRun(j, steps)
    decreases |steps|
  {
    if steps == [] then j else Final(Next(j, steps[0]), steps[1..])
  }

  // ----- every run of both is a run of the cut-over

  /** Both machines hold the same tables. */
  predicate SameTables(j: Joint) {
    j.cut.db.original == P.Current(j.replay.server) && j.cut.db.shadow == j.replay.shadow
  }

  /** The challenge is in the log, at its end unless more was written since `writes`. */
  predicate InLog(j: Joint, id: Option<nat>, writes: nat) {
    && id.Some? && id.value in j.replay.server.challenges
    && (j.cut.db.writes == writes ==> j.replay.server.challenges[id.value] == |j.replay.server.log|)
  }

  predicate SameChallenge(j: Joint) {
    && (C.Challenged(j.cut.m, j.cut.r) ==> InLog(j, j.id, j.cut.h.challengeWrites))
    && (j.cut.h.synced.Some? ==> InLog(j, j.heard, j.cut.h.synced.value) && j.heard.value in j.replay.worker.ran)
  }

  /** The rows are as they were when the tables were swapped. */
  predicate SwappedRows(cut: C.State) {
    cut.h.swap.Some? ==> cut.h.swap.value.agreed == (cut.db.original == cut.db.shadow)
  }

  ghost predicate Linked(start: C.State, j: Joint) {
    && CP.Leads(start, j.cut) && C.Inv(j.cut) && RA.Sound(j.replay)
    && SameTables(j) && SameChallenge(j) && SwappedRows(j.cut)
  }

  /** Nothing was written since the challenge and its sentinel was heard: the two tables are equal. */
  lemma EqualOnceHeard(replay: P.State, id: nat)
    requires RA.Sound(replay) && id in replay.worker.ran
    requires id in replay.server.challenges && replay.server.challenges[id] == |replay.server.log|
    ensures replay.shadow == P.Current(replay.server)
  {
    PT.EqualOnceAnswered(replay, id);
  }

  /** From `cut` to `cut'` neither a row changed nor a challenge was written or heard. */
  predicate RowsKept(cut: C.State, cut': C.State) {
    && cut'.db.original == cut.db.original && cut'.db.shadow == cut.db.shadow && cut'.db.writes == cut.db.writes
    && cut'.h.challengeWrites == cut.h.challengeWrites && cut'.h.synced == cut.h.synced
    && (C.Challenged(cut'.m, cut'.r) ==> C.Challenged(cut.m, cut.r))
    && (SwappedRows(cut) ==> SwappedRows(cut'))
  }

  lemma RowsKeptByMigrator(cut: C.State, o: C.Outcome)
    requires C.TokenInv(cut) && C.MigratorEnabled(cut, o) && C.Rowless(cut, C.ByMigrator(o))
    ensures RowsKept(cut, C.MigratorNext(cut, o))
  {
  }

  lemma RowsKeptByRenamer(cut: C.State, ok: bool)
    requires C.RenamerEnabled(cut, ok)
    ensures RowsKept(cut, C.RenamerNext(cut, ok))
  {
  }

  lemma RowsKeptByPast(cut: C.State, step: C.PastStep)
    requires C.PastEnabled(cut, step)
    ensures RowsKept(cut, C.PastNext(cut, step))
  {
  }

  lemma RowsAreKept(cut: C.State, step: C.Step)
    requires C.TokenInv(cut) && C.Enabled(cut, step) && C.Rowless(cut, step)
    ensures RowsKept(cut, C.Next(cut, step))
  {
    match step
    case ByMigrator(o) => RowsKeptByMigrator(cut, o);
    case ByLocker(ok) => CP.LockerFrames(cut, ok);
    case ByRenamer(ok) => RowsKeptByRenamer(cut, ok);
    case ByPast(x) => RowsKeptByPast(cut, x);
    case _ =>
  }

  lemma LinkedByCutOver(start: C.State, j: Joint, step: C.Step)
    requires Linked(start, j) && C.Enabled(j.cut, step) && C.Rowless(j.cut, step)
    ensures Linked(start, j.(cut := C.Next(j.cut, step)))
  {
    RowsAreKept(j.cut, step);
    var cut := CP.LeadOn(start, j.cut, step);
  }

  lemma LinkedByChallenge(start: C.State, j: Joint, id: nat)
    requires Linked(start, j) && Enabled(j, Challenge(id))
    ensures Linked(start, Next(j, Challenge(id)))
  {
    var cut := CP.LeadOn(start, j.cut, C.ByMigrator(C.Good(map[])));
    PT.CarefulStepIsUnharmed(j.replay, P.ByServer(P.WriteChallenge(id)));
    PP.InvKept(j.replay, P.ByServer(P.WriteChallenge(id)));
  }

  lemma LinkedByHearing(start: C.State, j: Joint)
    requires Linked(start, j) && Enabled(j, Hear)
    ensures Linked(start, Next(j, Hear))
  {
    if j.cut.db.writes == j.cut.h.challengeWrites {
      EqualOnceHeard(j.replay, j.id.value);
    }
    var cut := CP.LeadOn(start, j.cut, C.ByMigrator(C.Good(j.replay.shadow)));
  }

  lemma LinkedByCommit(start: C.State, j: Joint, changes: seq<P.Change>)
    requires Linked(start, j) && Enabled(j, Commit(changes))
    ensures Linked(start, Next(j, Commit(changes)))
  {
    var replay := P.ServerNext(j.replay, P.CommitChanges(changes));
    var cut := CP.LeadOn(start, j.cut, C.Write(P.Current(replay.server)));
    PT.CarefulStepIsUnharmed(j.replay, Written(changes));
    PP.InvKept(j.replay, Written(changes));
  }

  lemma LinkedByProcess(start: C.State, j: Joint, step: P.Step)
    requires Linked(start, j) && Enabled(j, Process(step))
    ensures Linked(start, Next(j, Process(step)))
  {
    var j' := Next(j, Process(step));
    PT.CarefulStepIsUnharmed(j.replay, step);
    PP.InvKept(j.replay, step);
    PT.LogKept(j.replay, step);
    if j.cut.h.synced == Some(j.cut.db.writes) {
      EqualOnceHeard(j.replay, j.heard.value);
      EqualOnceHeard(j'.replay, j.heard.value);
      assert j'.cut == j.cut;
    } else {
      var cut := CP.LeadOn(start, j.cut, C.Replay(j'.replay.shadow));
    }
  }

  lemma LinkKept(start: C.State, j: Joint, step: Step)
    requires Linked(start, j) && Enabled(j, step)
    ensures Linked(start, Next(j, step))
  {
    match step
    case CutOver(x) => LinkedByCutOver(start, j, x);
    case Challenge(id) => LinkedByChallenge(start, j, id);
    case Hear => LinkedByHearing(start, j);
    case Commit(changes) => LinkedByCommit(start, j, changes);
    case Process(x) => LinkedByProcess(start, j, x);
  }

  lemma {:induction false} LinkedRun(start: C.State, j: Joint, steps: seq<Step>)
    requires Linked(start, j) && IsRun(j, steps)
    ensures Linked(start, Final(j, steps))
    decreases |steps|
  {
    if steps != [] {
      LinkKept(start, j, steps[0]);
      LinkedRun(start, Next(j, steps[0]), steps[1..]);
    }
  }

  /** A cut-over begins when the row copy is over. */
  function Begin(replay: P.State, retries: nat, attempts: nat): Joint {
    Joint(C.Start(P.Current(replay.server), replay.shadow, retries, attempts), replay, None, None)
  }

  lemma LinkedAtFirst(replay: P.State, retries: nat, attempts: nat)
    requires RA.Sound(replay)
    ensures Linked(Begin(replay, retries, attempts).cut, Begin(replay, retries, attempts))
  {
    CP.InvAtStart(P.Current(replay.server), replay.shadow, retries, attempts);
    CP.LeadsNowhere(Begin(replay, retries, attempts).cut);
  }

  /** Some run of both goes from `j` to `k`. */
  ghost predicate Leads(j: Joint, k: Joint) {
    exists steps :: IsRun(j, steps) && Final(j, steps) == k
  }

  /** The replay did well up to the end of the row copy. */
  ghost predicate Copied(replay: P.State) {
    (exists init :: PT.Reaches(P.Start(init), replay)) && PT.Unharmed(replay) && replay.copy.finished
  }

  ghost predicate Reached(j: Joint) {
    exists replay: P.State, retries: nat, attempts: nat ::
      Copied(replay) && Leads(Begin(replay, retries, attempts), j)
  }

  lemma LinkReached(j: Joint)
    requires Reached(j)
    ensures CP.Reachable(j.cut) && Linked(j.cut, j)
  {
    var replay: P.State, retries: nat, attempts: nat :| Copied(replay) && Leads(Begin(replay, retries, attempts), j);
    var init :| PT.Reaches(P.Start(init), replay);
    var first := Begin(replay, retries, attempts);
    var steps :| IsRun(first, steps) && Final(first, steps) == j;
    PT.InvReached(init, replay);
    LinkedAtFirst(replay, retries, attempts);
    LinkedRun(first.cut, first, steps);
    CP.LeadsNowhere(j.cut);
  }

  /** Every run of the two together is a run of the cut-over machine, over the same tables. */
  lemma CutOverRefined(j: Joint, k: Joint)
    requires Reached(j) && Leads(j, k)
    ensures CP.Reachable(j.cut) && CP.Leads(j.cut, k.cut)
    ensures SameTables(k) && SwappedRows(k.cut)
  {
    LinkReached(j);
    var steps :| IsRun(j, steps) && Final(j, steps) == k;
    LinkedRun(j.cut, j, steps);
  }

  /**
   End to end. Whatever is committed, read, retried and replayed meanwhile, and whatever
   earlier attempts left behind, a cut-over that returns without error swaps the
   original, with every write to it, against a ghost that holds the same rows.
   */
  lemma CutOverIsSafe(j: Joint)
    requires Reached(j) && j.cut.m == C.Returned(true)
    ensures j.cut.h.swap == Some(C.Swap(j.cut.h.lockWrites, true, |j.cut.past.renamers|))
    ensures j.replay.shadow == P.Current(j.replay.server)
  {
    LinkReached(j);
    CP.SuccessIsSafe(j.cut);
  }

  // ----- runs that go on

  lemma LeadsNowhere(j: Joint)
    ensures Leads(j, j)
  {
    assert IsRun(j, []) && Final(j, []) == j;
  }

  lemma {:induction false} RunThen(j: Joint, steps: seq<Step>, more: seq<Step>)
    requires IsRun(j, steps) && IsRun(Final(j, steps), more)
    ensures IsRun(j, steps + more) && Final(j, steps + more) == Final(Final(j, steps), more)
    decreases |steps|
  {
    if steps == [] {
      assert steps + more == more;
    } else {
      assert (steps + more)[0] == steps[0] && (steps + more)[1..] == steps[1..] + more;
      RunThen(Next(j, steps[0]), steps[1..], more);
    }
  }

  lemma LeadsThen(j: Joint, k: Joint, n: Joint)
    requires Leads(j, k) && Leads(k, n)
    ensures Leads(j, n)
  {
    var steps :| IsRun(j, steps) && Final(j, steps) == k;
    var more :| IsRun(k, more) && Final(k, more) == n;
    RunThen(j, steps, more);
  }

  lemma LeadsOne(j: Joint, step: Step)
    requires Enabled(j, step)
    ensures Leads(j, Next(j, step))
  {
    var k, steps := Next(j, step), [step];
    assert steps[0] == step && steps[1..] == [] && IsRun(k, []) && Final(k, []) == k;
    assert IsRun(j, steps) && Final(j, steps) == k;
  }

  lemma {:induction false} QuietRunLifts(j: Joint, steps: seq<C.Step>)
    requires C.IsRun(j.cut, steps) && CP.QuietRun(j.cut, steps)
    ensures Leads(j, j.(cut := C.Final(j.cut, steps)))
    decreases |steps|
  {
    LeadsNowhere(j);
    if steps != [] {
      var k := Next(j, CutOver(steps[0]));
      LeadsOne(j, CutOver(steps[0]));
      QuietRunLifts(k, steps[1..]);
      LeadsThen(j, k, j.(cut := C.Final(j.cut, steps)));
    }
  }

  /** What the cut-over can do without touching rows, it can do beside the replay. */
  lemma QuietLifts(j: Joint, cut: C.State)
    requires CP.QuietlyLeads(j.cut, cut)
    ensures Leads(j, j.(cut := cut))
  {
    var steps :| C.IsRun(j.cut, steps) && CP.QuietRun(j.cut, steps) && C.Final(j.cut, steps) == cut;
    QuietRunLifts(j, steps);
  }

  /** The two machines with the replay at `replay`. */
  function With(j: Joint, replay: P.State): Joint {
    j.(cut := j.cut.(db := j.cut.db.(shadow := replay.shadow)), replay := replay)
  }

  lemma {:induction false} ReplayRunLifts(j: Joint, steps: seq<P.Step>)
    requires j.cut.h.swap.None? && j.cut.db.shadow == j.replay.shadow
    requires P.IsRun(j.replay, steps) && PT.CarefulRun(j.replay, steps)
    requires forall i | 0 <= i < |steps| :: PT.Undisturbed(steps[i])
    ensures Leads(j, With(j, P.Final(j.replay, steps)))
    decreases |steps|
  {
    if steps == [] {
      LeadsNowhere(j);
      assert With(j, j.replay) == j;
    } else {
      var k := Next(j, Process(steps[0]));
      LeadsOne(j, Process(steps[0]));
      assert forall i | 0 <= i < |steps[1..]| :: steps[1..][i] == steps[i + 1];
      ReplayRunLifts(k, steps[1..]);
      LeadsThen(j, k, With(j, P.Final(j.replay, steps)));
    }
  }

  /** Before the tables are swapped, the replay can do what it can do alone. */
  lemma ReplayLifts(j: Joint, replay: P.State)
    requires j.cut.h.swap.None? && j.cut.db.shadow == j.replay.shadow && RA.Replays(j.replay, replay)
    ensures Leads(j, With(j, replay))
  {
    var steps :|
      && P.IsRun(j.replay, steps) && PT.CarefulRun(j.replay, steps)
      && (forall i | 0 <= i < |steps| :: PT.Undisturbed(steps[i])) && P.Final(j.replay, steps) == replay;
    ReplayRunLifts(j, steps);
  }

  // ----- whether a RENAME can still swap the tables

  ghost predicate CanSwap(j: Joint, i: nat) {
    exists k :: Leads(j, k) && CP.SwappedBy(k.cut, i)
  }

  /** The replay has no say in whether the RENAME of attempt `i` swaps the tables. */
  lemma SwapsExactlyWhen(j: Joint, i: nat)
    requires Reached(j) && CP.Decided(j.cut, i)
    ensures CanSwap(j, i) <==> CP.SwappedBy(j.cut, i) || CP.MaySwap(j.cut, i)
  {
    LinkReached(j);
    if CP.MaySwap(j.cut, i) {
      CP.LeadsNowhere(j.cut);
      var cut := CP.Cleared(j.cut, j.cut, i);
      cut := CP.Granted(j.cut, cut, i);
      QuietLifts(j, cut);
    } else if CP.SwappedBy(j.cut, i) {
      LeadsNowhere(j);
    } else {
      CP.SwapsExactlyWhen(j.cut, i);
      forall k | Leads(j, k) ensures !CP.SwappedBy(k.cut, i) {
        CutOverRefined(j, k);
      }
    }
  }

  // ----- whether it can lose a write

  /** Some continuation of `j` swaps differing tables by the RENAME of attempt `i`. */
  ghost predicate CanLose(j: Joint, i: nat) {
    exists k :: Leads(j, k) && CP.LostBy(k.cut, i)
  }

  /** With the lock and the magic table gone, the RENAME of attempt `i` swaps the tables as they are. */
  lemma SwapsNow(j: Joint, i: nat) returns (k: Joint)
    requires C.Inv(j.cut) && CP.Awaits(j.cut, i) && !C.Locked(j.cut) && !j.cut.db.magic
    ensures Leads(j, k) && k.cut.h.swap == C.Swapped(j.cut, i)
  {
    CP.LeadsNowhere(j.cut);
    var cut := CP.Granted(j.cut, j.cut, i);
    QuietLifts(j, cut);
    k := j.(cut := cut);
  }

  /** The lock, the magic table and the RENAMEs of other attempts go, and the original can be written to. */
  lemma Writable(j: Joint, i: nat) returns (cut: C.State)
    requires C.Inv(j.cut) && CP.Decided(j.cut, i) && CP.MaySwap(j.cut, i) && !C.RenamerOf(j.cut, i).Queued?
    ensures Leads(j, j.(cut := cut)) && C.Inv(cut) && CP.Alike(j.cut, cut, i) && Clear(cut, i)
  {
    CP.LeadsNowhere(j.cut);
    cut := CP.Cleared(j.cut, j.cut, i);
    cut := CP.Flushed(j.cut, cut, i, 0);
    QuietLifts(j, cut);
  }

  /** Nothing stands between the RENAME of attempt `i` and the swap, nor between a write and the original. */
  predicate Clear(cut: C.State, i: nat) {
    CP.Awaits(cut, i) && !C.Locked(cut) && !cut.db.magic && !C.AnyQueued(cut)
  }

  lemma ChangeIsCommitted(replay: P.State, change: P.Change)
    requires P.ServerInv(replay.server) && R.Possible(P.Current(replay.server), change)
    ensures P.ServerEnabled(replay, P.CommitChanges([change]))
    ensures P.Current(P.ServerNext(replay, P.CommitChanges([change])).server) ==
            R.Commit(P.Current(replay.server), change)
  {
    R.ValidLogAppend(replay.server.init, replay.server.log, change);
  }

  lemma WriteIsPossible(j: Joint, change: P.Change, i: nat)
    requires Clear(j.cut, i)
    requires P.ServerInv(j.replay.server) && R.Possible(P.Current(j.replay.server), change)
    ensures Enabled(j, Commit([change]))
    ensures Next(j, Commit([change])).cut == C.Next(j.cut, C.Write(R.Commit(P.Current(j.replay.server), change)))
  {
    ChangeIsCommitted(j.replay, change);
  }

  lemma WriteKeepsClear(cut: C.State, table: Table, i: nat)
    requires C.Inv(cut) && Clear(cut, i)
    ensures C.Enabled(cut, C.Write(table))
    ensures var t := C.Next(cut, C.Write(table));
            C.Inv(t) && Clear(t, i) && C.Swapped(t, i) == Some(C.Swap(cut.db.writes + 1, table == cut.db.shadow, i))
  {
    CP.InvKept(cut, C.Write(table));
  }

  /** A change is committed and then swapped away. */
  lemma WriteThenSwap(j: Joint, i: nat, change: P.Change) returns (k: Joint)
    requires C.Inv(j.cut) && Clear(j.cut, i)
    requires P.ServerInv(j.replay.server) && R.Possible(P.Current(j.replay.server), change)
    ensures Leads(j, k)
    ensures var after := R.Commit(P.Current(j.replay.server), change);
            k.cut.h.swap == Some(C.Swap(j.cut.db.writes + 1, after == j.cut.db.shadow, i))
  {
    WriteIsPossible(j, change, i);
    WriteKeepsClear(j.cut, R.Commit(P.Current(j.replay.server), change), i);
    LeadsOne(j, Commit([change]));
    k := SwapsNow(Next(j, Commit([change])), i);
    LeadsThen(j, Next(j, Commit([change])), k);
  }

  lemma LateRename(j: Joint, i: nat, change: P.Change) returns (k: Joint)
    requires C.Inv(j.cut) && CP.Decided(j.cut, i) && CP.MaySwap(j.cut, i) && !C.RenamerOf(j.cut, i).Queued?
    requires P.ServerInv(j.replay.server) && R.Possible(P.Current(j.replay.server), change)
    ensures Leads(j, k)
    ensures var after := R.Commit(P.Current(j.replay.server), change);
            k.cut.h.swap == Some(C.Swap(j.cut.db.writes + 1, after == j.cut.db.shadow, i))
  {
    var cut := Writable(j, i);
    k := WriteThenSwap(j.(cut := cut), i, change);
    LeadsThen(j, j.(cut := cut), k);
  }

  /**
   Whenever the RENAME of attempt `i` is still to be issued and may be granted, any
   change can still be committed to the original before it, and is swapped away unless
   the ghost happens to have it.
   */
  lemma LateRenameLosesWrite(j: Joint, i: nat, change: P.Change) returns (k: Joint)
    requires Reached(j) && CP.Decided(j.cut, i) && CP.MaySwap(j.cut, i) && !C.RenamerOf(j.cut, i).Queued?
    requires R.Possible(P.Current(j.replay.server), change)
    ensures Leads(j, k)
    ensures var after := R.Commit(P.Current(j.replay.server), change);
            k.cut.h.swap == Some(C.Swap(j.cut.db.writes + 1, after == j.replay.shadow, i))
  {
    LinkReached(j);
    k := LateRename(j, i, change);
  }

  /** A change after which the original differs from the ghost. */
  lemma Unlike(original: Table, shadow: Table) returns (change: P.Change)
    ensures R.Possible(original, change) && R.Commit(original, change) != shadow
  {
    var row: P.Row := map[];
    if [] in shadow && shadow[[]] == map[] {
      row := map["v" := 0.0];
      assert "v" in row;
    }
    change := if [] in original then R.Update([], [], row) else R.Insert([], row);
    assert R.Commit(original, change)[[]] == row;
  }

  /** A queued RENAME that may be granted loses a write if the replay can make the tables differ. */
  lemma QueuedLoses(j: Joint, i: nat)
    requires Linked(j.cut, j) && CP.Decided(j.cut, i) && CP.MaySwap(j.cut, i) && RA.CanDiffer(j.replay)
    ensures CanLose(j, i)
  {
    CP.LeadsNowhere(j.cut);
    var cut := CP.Cleared(j.cut, j.cut, i);
    QuietLifts(j, cut);
    var cleared := j.(cut := cut);
    var replay :| RA.Replays(j.replay, replay) && replay.shadow != P.Current(replay.server);
    ReplayLifts(cleared, replay);
    var differing := With(cleared, replay);
    LeadsThen(j, cleared, differing);
    LinkThrough(j, differing);
    assert CP.Awaits(differing.cut, i);
    var k := SwapsNow(differing, i);
    LeadsThen(j, differing, k);
  }

  lemma LinkThrough(j: Joint, k: Joint)
    requires Linked(j.cut, j) && Leads(j, k)
    ensures C.Inv(k.cut) && SameTables(k)
  {
    var steps :| IsRun(j, steps) && Final(j, steps) == k;
    LinkedRun(j.cut, j, steps);
  }

  /** The RENAME of attempt `i` is queued, and nothing is swapped. */
  predicate Waits(j: Joint, i: nat) {
    CP.Decided(j.cut, i) && j.cut.h.swap.None? && C.RenamerOf(j.cut, i).Queued?
  }

  lemma {:induction false} SwapStays(j: Joint, steps: seq<Step>)
    requires IsRun(j, steps) && j.cut.h.swap.Some?
    ensures Final(j, steps).cut.h.swap == j.cut.h.swap
    decreases |steps|
  {
    if steps != [] {
      if steps[0].CutOver? {
        CP.SwapKept(j.cut, steps[0].move);
      }
      SwapStays(Next(j, steps[0]), steps[1..]);
    }
  }

  /** While a RENAME is queued, the replay goes on by itself. */
  lemma WaitsReplays(from: P.State, j: Joint, step: Step, i: nat)
    requires RA.Replays(from, j.replay) && Waits(j, i) && Enabled(j, step)
    ensures RA.Replays(from, Next(j, step).replay)
    ensures Next(j, step).cut.h.swap.Some? ==> Next(j, step).replay == j.replay
  {
    match step
    case CutOver(x) =>
    case Challenge(id) => RA.ReplaysOn(from, j.replay, P.ByServer(P.WriteChallenge(id)));
    case Hear =>
    case Commit(changes) => assert false;
    case Process(x) => RA.ReplaysOn(from, j.replay, x);
  }

  /** A queued RENAME that is finished without a swap never swaps. */
  lemma FinishedIsSettled(j: Joint, step: Step, i: nat)
    requires Waits(j, i) && C.TokenInv(j.cut) && Enabled(j, step) && Next(j, step).cut.h.swap.None?
    ensures Waits(Next(j, step), i) || CP.Settled(Next(j, step).cut, i)
  {
    if step.CutOver? {
      CP.DecidedKept(j.cut, step.move, i);
      QueuedOrDone(j.cut, step.move, i);
    }
  }

  lemma QueuedOrDone(cut: C.State, step: C.Step, i: nat)
    requires CP.Decided(cut, i) && C.TokenInv(cut) && C.RenamerOf(cut, i).Queued? && C.Enabled(cut, step)
    ensures var r := C.RenamerOf(C.Next(cut, step), i); r.Queued? || !C.Pending(r)
  {
    match step
    case ByLocker(ok) => CP.LockerFrames(cut, ok);
    case ByMigrator(o) => RenamersKept(cut, o);
    case _ =>
  }

  lemma RenamersKept(cut: C.State, o: C.Outcome)
    requires C.MigratorEnabled(cut, o)
    ensures C.MigratorNext(cut, o).past == cut.past
    ensures !cut.m.StartRename? ==> C.MigratorNext(cut, o).r == cut.r
  {
  }

  /** If a queued RENAME loses a write, the replay has made the tables differ. */
  lemma {:induction false} LossShows(from: P.State, start: C.State, j: Joint, steps: seq<Step>, i: nat)
    requires Linked(start, j) && RA.Replays(from, j.replay) && Waits(j, i)
    requires IsRun(j, steps) && CP.LostBy(Final(j, steps).cut, i)
    ensures RA.CanDiffer(from)
    decreases |steps|
  {
    var k := Next(j, steps[0]);
    LinkKept(start, j, steps[0]);
    WaitsReplays(from, j, steps[0], i);
    if k.cut.h.swap.Some? {
      SwapStays(k, steps[1..]);
      assert k.replay.shadow != P.Current(k.replay.server);
    } else {
      FinishedIsSettled(j, steps[0], i);
      if CP.Settled(k.cut, i) {
        NeverLost(start, k, steps[1..], i);
      } else {
        LossShows(from, start, k, steps[1..], i);
      }
    }
  }

  lemma NeverLost(start: C.State, j: Joint, steps: seq<Step>, i: nat)
    requires Linked(start, j) && CP.Settled(j.cut, i) && IsRun(j, steps)
    ensures !CP.LostBy(Final(j, steps).cut, i)
  {
    CP.LeadsNowhere(j.cut);
    LinkedRun(j.cut, j, steps);
    var moves :| C.IsRun(j.cut, moves) && C.Final(j.cut, moves) == Final(j, steps).cut;
    CP.NeverSwaps(j.cut, moves, i);
  }

  /**
   The RENAME may be granted, and it is still to be issued, or the tables differ, or
   something on its way to the ghost will make them differ.
   */
  predicate MayLose(j: Joint, i: nat) {
    && CP.MaySwap(j.cut, i)
    && (C.RenamerOf(j.cut, i).Queued? ==> j.replay.shadow != P.Current(j.replay.server) || RA.CanChange(j.replay))
  }

  /** The RENAME of attempt `i` can lose a write exactly when it has, or when the state says that it may. */
  lemma LosesExactlyWhen(j: Joint, i: nat)
    requires Reached(j) && CP.Decided(j.cut, i)
    ensures CanLose(j, i) <==> CP.LostBy(j.cut, i) || MayLose(j, i)
  {
    LinkReached(j);
    RA.DiffersExactlyWhen(j.replay);
    if CP.LostBy(j.cut, i) {
      LeadsNowhere(j);
    } else if MayLose(j, i) {
      if C.RenamerOf(j.cut, i).Queued? {
        QueuedLoses(j, i);
      } else {
        var change := Unlike(P.Current(j.replay.server), j.replay.shadow);
        var k := LateRenameLosesWrite(j, i, change);
      }
    } else {
      forall k | Leads(j, k) ensures !CP.LostBy(k.cut, i) {
        NeverLoses(j, k, i);
      }
    }
  }

  lemma NeverLoses(j: Joint, k: Joint, i: nat)
    requires Linked(j.cut, j) && CP.Decided(j.cut, i) && !CP.LostBy(j.cut, i) && !MayLose(j, i) && Leads(j, k)
    ensures !CP.LostBy(k.cut, i)
  {
    RA.DiffersExactlyWhen(j.replay);
    var steps :| IsRun(j, steps) && Final(j, steps) == k;
    if CP.SwappedBy(j.cut, i) {
      SwapStays(j, steps);
    } else if CP.MaySwap(j.cut, i) {
      if CP.LostBy(k.cut, i) {
        RA.ReplaysNowhere(j.replay);
        LossShows(j.replay, j.cut, j, steps, i);
      }
    } else {
      NeverLost(j.cut, j, steps, i);
    }
  }

  /** What keeps the replay from making the tables differ keeps a queued RENAME from losing a write. */
  lemma CannotDifferCannotLose(j: Joint, i: nat)
    requires Reached(j) && Waits(j, i) && !RA.CanDiffer(j.replay)
    ensures !CanLose(j, i)
  {
    LinkReached(j);
    RA.DiffersExactlyWhen(j.replay);
    LosesExactlyWhen(j, i);
  }

  /** Nothing was written since the last answered challenge. */
  lemma SyncedCannotLose(j: Joint, i: nat)
    requires Reached(j) && Waits(j, i) && j.cut.h.synced == Some(j.cut.db.writes)
    ensures !CanLose(j, i)
  {
    LinkReached(j);
    RA.AnsweredCannotDiffer(j.replay, j.heard.value);
    CannotDifferCannotLose(j, i);
  }

  /** Everything logged is replayed. */
  lemma ReplayedCannotLose(j: Joint, i: nat)
    requires Reached(j) && Waits(j, i) && RA.Replayed(j.replay)
    ensures !CanLose(j, i)
  {
    LinkReached(j);
    RA.ReplayedCannotDiffer(j.replay);
    CannotDifferCannotLose(j, i);
  }
}
