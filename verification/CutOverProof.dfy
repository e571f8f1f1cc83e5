/** Every step of the cut-over keeps its invariant, and what follows for every run. */
module CutOverProof {
  import opened Wrappers
  import opened CutOver

  lemma MigratorKeepsLock(s: State, o: Outcome)
    requires LockInv(s) && TokenInv(s) && MigratorEnabled(s, o)
    ensures LockInv(MigratorNext(s, o))
  {
  }

  lemma MigratorKeepsData(s: State, o: Outcome)
    requires LockInv(s) && DataInv(s) && TokenInv(s) && MigratorEnabled(s, o)
    ensures DataInv(MigratorNext(s, o))
  {
  }

  lemma MigratorKeepsTokens(s: State, o: Outcome)
    requires TokenInv(s) && MigratorEnabled(s, o)
    ensures TokenInv(MigratorNext(s, o))
  {
  }

  /** What the migrator leaves alone. */
  predicate MigratorFrame(s: State, t: State) {
    && t.l == s.l && t.past == s.past && t.ch == s.ch && t.renameFailed == s.renameFailed
    && t.db == s.db.(shadow := t.db.shadow) && t.h.lockWrites == s.h.lockWrites && t.h.underLock == s.h.underLock
    && t.h.swap == s.h.swap && (t.r == s.r || (s.m.StartRename? && t.r.BeginRename?))
    && (BeforeRelease(t.m) ==> BeforeRelease(s.m) || s.m.WaitLocked?)
  }

  lemma PollFrames(s: State, o: Outcome)
    requires s.m.Poll?
    ensures MigratorFrame(s, DoPoll(s, s.m.left, o))
  {
  }

  lemma EarlyFrames(s: State, o: Outcome)
    requires MigratorEnabled(s, o)
    requires s.m.WaitLocked? || s.m.WaitLockSession? || s.m.WriteChallenge? || s.m.WaitEvents? || s.m.StartRename?
    ensures MigratorFrame(s, MigratorNext(s, o))
  {
  }

  lemma LateFrames(s: State, o: Outcome)
    requires MigratorEnabled(s, o) && !s.m.Poll?
    requires !s.m.WaitLocked? && !s.m.WaitLockSession? && !s.m.WriteChallenge? && !s.m.WaitEvents? && !s.m.StartRename?
    ensures MigratorFrame(s, MigratorNext(s, o))
  {
  }

  lemma MigratorFrames(s: State, o: Outcome)
    requires MigratorEnabled(s, o)
    ensures MigratorFrame(s, MigratorNext(s, o))
  {
    match s.m
    case Poll(_) => PollFrames(s, o);
    case WaitLocked => EarlyFrames(s, o);
    case WaitLockSession => EarlyFrames(s, o);
    case WriteChallenge => EarlyFrames(s, o);
    case WaitEvents => EarlyFrames(s, o);
    case StartRename => EarlyFrames(s, o);
    case _ => LateFrames(s, o);
  }

  lemma RenameFramed(s: State, t: State)
    requires RenameInv(s) && TokenInv(s) && MigratorFrame(s, t)
    ensures RenameInv(t)
  {
  }

  lemma MigratorKeepsRename(s: State, o: Outcome)
    requires RenameInv(s) && TokenInv(s) && MigratorEnabled(s, o)
    ensures RenameInv(MigratorNext(s, o))
  {
    MigratorFrames(s, o);
    RenameFramed(s, MigratorNext(s, o));
  }

  lemma MigratorKeepsFound(s: State, o: Outcome)
    requires RenameInv(s) && FoundInv(s) && TokenInv(s) && MigratorEnabled(s, o)
    ensures FoundInv(MigratorNext(s, o))
  {
  }

  lemma CapacityFramed(s: State, t: State)
    requires CapacityInv(s) && TokenInv(s) && MigratorFrame(s, t)
    ensures CapacityInv(t)
  {
  }

  lemma MigratorKeepsCapacity(s: State, o: Outcome)
    requires CapacityInv(s) && TokenInv(s) && MigratorEnabled(s, o)
    ensures CapacityInv(MigratorNext(s, o))
  {
    MigratorFrames(s, o);
    CapacityFramed(s, MigratorNext(s, o));
  }

  lemma MigratorKeepsLockDelivery(s: State, o: Outcome)
    requires LockDelivery(s) && TokenInv(s) && MigratorEnabled(s, o)
    ensures LockDelivery(MigratorNext(s, o))
  {
  }

  lemma MigratorKeepsDelivery(s: State, o: Outcome)
    requires DeliveryInv(s) && RenameCapacity(s) && TokenInv(s) && MigratorEnabled(s, o)
    ensures RenameDelivery(MigratorNext(s, o))
  {
  }

  lemma AcquiringKeepsHold(s: State, ok: bool)
    requires HoldInv(s) && !PastLock(s.l) && LockerEnabled(s, ok)
    ensures HoldInv(LockerNext(s, ok))
  {
  }

  lemma ReleasingKeepsHold(s: State, ok: bool)
    requires HoldInv(s) && PastLock(s.l) && LockerEnabled(s, ok)
    ensures HoldInv(LockerNext(s, ok))
  {
  }

  lemma LockerKeepsLearn(s: State, ok: bool)
    requires LearnInv(s) && TokenInv(s) && LockerEnabled(s, ok)
    ensures LearnInv(LockerNext(s, ok))
  {
  }

  lemma LockerKeepsLock(s: State, ok: bool)
    requires LockInv(s) && TokenInv(s) && LockerEnabled(s, ok)
    ensures LockInv(LockerNext(s, ok))
  {
    if PastLock(s.l) {
      ReleasingKeepsHold(s, ok);
    } else {
      AcquiringKeepsHold(s, ok);
    }
    LockerKeepsLearn(s, ok);
  }

  /** What the locking session leaves alone. */
  predicate LockerFrame(s: State, t: State) {
    && t.m == s.m && t.r == s.r && t.past == s.past && t.renameFailed == s.renameFailed && t.renameId == s.renameId
    && t.ch.renamed == s.ch.renamed && t.ch.renameSession == s.ch.renameSession && t.db.alive == s.db.alive
    && t.db.writes == s.db.writes && t.db.original == s.db.original && t.db.shadow == s.db.shadow
    && (t.h == s.h || (s.l.Lock? && t.h == s.h.(lockWrites := s.db.writes)))
    && (t.db.held ==> s.db.held || s.l.Lock?)
  }

  lemma LockerFrames(s: State, ok: bool)
    requires LockerEnabled(s, ok)
    ensures LockerFrame(s, LockerNext(s, ok))
  {
  }

  lemma FramedData(s: State, t: State)
    requires LearnInv(s) && DataInv(s) && LockerFrame(s, t)
    ensures DataInv(t)
  {
  }

  lemma FramedRename(s: State, t: State)
    requires LearnInv(s) && RenameInv(s) && LockerFrame(s, t)
    ensures RenameInv(t)
  {
  }

  lemma FramedFound(s: State, t: State)
    requires FoundInv(s) && LockerFrame(s, t)
    ensures FoundInv(t)
  {
  }

  lemma LockerKeepsTokens(s: State, ok: bool)
    requires TokenInv(s) && LockerEnabled(s, ok)
    ensures TokenInv(LockerNext(s, ok))
  {
  }

  lemma LockerKeepsCapacity(s: State, ok: bool)
    requires LockCapacity(s) && LockerEnabled(s, ok)
    ensures LockCapacity(LockerNext(s, ok))
  {
  }

  lemma LockerKeepsDelivery(s: State, ok: bool)
    requires LockDelivery(s) && LockCapacity(s) && LockerEnabled(s, ok)
    ensures LockDelivery(LockerNext(s, ok))
  {
  }

  lemma FramedDelivery(s: State, t: State)
    requires RenameCapacity(s) && RenameDelivery(s) && LockerFrame(s, t)
    ensures RenameCapacity(t) && RenameDelivery(t)
  {
  }

  lemma RenamerKeepsLock(s: State, ok: bool)
    requires Inv(s) && RenamerEnabled(s, ok)
    ensures LockInv(RenamerNext(s, ok))
  {
  }

  lemma RenamerKeepsData(s: State, ok: bool)
    requires Inv(s) && RenamerEnabled(s, ok)
    ensures DataInv(RenamerNext(s, ok))
  {
  }

  lemma RenamerKeepsTokens(s: State, ok: bool)
    requires Inv(s) && RenamerEnabled(s, ok)
    ensures TokenInv(RenamerNext(s, ok))
  {
  }

  lemma RenamerKeepsRename(s: State, ok: bool)
    requires Inv(s) && RenamerEnabled(s, ok)
    ensures RenameInv(RenamerNext(s, ok))
  {
  }

  lemma RenamerKeepsFound(s: State, ok: bool)
    requires Inv(s) && RenamerEnabled(s, ok)
    ensures FoundInv(RenamerNext(s, ok))
  {
  }

  lemma RenamerKeepsCapacity(s: State, ok: bool)
    requires RenameCapacity(s) && RenamerEnabled(s, ok)
    ensures RenameCapacity(RenamerNext(s, ok))
  {
  }

  lemma RenamerKeepsLocks(s: State, ok: bool)
    requires LockCapacity(s) && LockDelivery(s) && RenamerEnabled(s, ok)
    ensures LockCapacity(RenamerNext(s, ok)) && LockDelivery(RenamerNext(s, ok))
  {
    var t := RenamerNext(s, ok);
    assert t.l == s.l && t.m == s.m && t.ch.locked == s.ch.locked;
    assert t.ch.lockSession == s.ch.lockSession && t.ch.unlocked == s.ch.unlocked;
  }

  lemma RenamerKeepsDelivery(s: State, ok: bool)
    requires RenameDelivery(s) && RenameCapacity(s) && RenameInv(s) && RenamerEnabled(s, ok)
    ensures RenameDelivery(RenamerNext(s, ok))
  {
  }

  lemma InvKept(s: State, step: Step)
    requires Inv(s) && Enabled(s, step)
    ensures Inv(Next(s, step))
  {
    match step
    case ByMigrator(o) =>
      MigratorKeepsLock(s, o);
      MigratorKeepsData(s, o);
      MigratorKeepsTokens(s, o);
      MigratorKeepsRename(s, o);
      MigratorKeepsFound(s, o);
      MigratorKeepsCapacity(s, o);
      MigratorKeepsLockDelivery(s, o);
      MigratorKeepsDelivery(s, o);
    case ByLocker(ok) =>
      LockerKeepsLock(s, ok);
      LockerFrames(s, ok);
      FramedData(s, LockerNext(s, ok));
      LockerKeepsTokens(s, ok);
      FramedRename(s, LockerNext(s, ok));
      FramedFound(s, LockerNext(s, ok));
      LockerKeepsCapacity(s, ok);
      LockerKeepsDelivery(s, ok);
      FramedDelivery(s, LockerNext(s, ok));
    case ByRenamer(ok) =>
      RenamerKeepsLock(s, ok);
      RenamerKeepsData(s, ok);
      RenamerKeepsTokens(s, ok);
      RenamerKeepsRename(s, ok);
      RenamerKeepsFound(s, ok);
      RenamerKeepsCapacity(s, ok);
      RenamerKeepsDelivery(s, ok);
      RenamerKeepsLocks(s, ok);
    case ByPast(x) => PastKeeps(s, x);
    case Again => AgainKeeps(s);
    case _ => OthersKeep(s, step);
  }

  lemma PastRenamesKeeps(s: State, i: nat, ok: bool)
    requires Inv(s) && PastEnabled(s, Renames(i, ok))
    ensures Inv(PastNext(s, Renames(i, ok)))
  {
  }

  lemma PastKeeps(s: State, step: PastStep)
    requires Inv(s) && PastEnabled(s, step)
    ensures Inv(PastNext(s, step))
  {
    if step.Renames? {
      PastRenamesKeeps(s, step.i, step.ok);
    }
  }

  lemma AgainKeeps(s: State)
    requires Inv(s) && Enabled(s, Again)
    ensures Inv(Next(s, Again))
  {
  }

  lemma OthersKeep(s: State, step: Step)
    requires Inv(s) && Enabled(s, step) && (step.Write? || step.Replay? || step.LockerDies?)
    ensures Inv(Next(s, step))
  {
  }

  lemma InvAtStart(original: Table, shadow: Table, retries: nat, attempts: nat)
    ensures Inv(Start(original, shadow, retries, attempts))
  {
  }

  lemma {:induction false} InvRun(s: State, steps: seq<Step>)
    requires Inv(s) && IsRun(s, steps)
    ensures Inv(Final(s, steps))
    decreases |steps|
  {
    if steps != [] {
      InvKept(s, steps[0]);
      InvRun(Next(s, steps[0]), steps[1..]);
    }
  }

  /** Some run goes from `s` to `t`. */
  ghost predicate Leads(s: State, t: State) {
    exists steps :: IsRun(s, steps) && Final(s, steps) == t
  }

  ghost predicate Reachable(s: State) {
    exists original: Table, shadow: Table, retries: nat, attempts: nat ::
      Leads(Start(original, shadow, retries, attempts), s)
  }

  lemma InvReached(s: State)
    requires Reachable(s)
    ensures Inv(s)
  {
    var original: Table, shadow: Table, retries: nat, attempts: nat :|
      Leads(Start(original, shadow, retries, attempts), s);
    var start := Start(original, shadow, retries, attempts);
    var steps :| IsRun(start, steps) && Final(start, steps) == s;
    InvAtStart(original, shadow, retries, attempts);
    InvRun(start, steps);
  }

  /**
   Cut-over safety. A cut-over that returns without error has swapped the tables, no
   write to the original took effect between the lock and the swap, and at the swap
   the two tables held the same rows; whatever earlier attempts left behind.
   */
  lemma SuccessIsSafe(s: State)
    requires Reachable(s) && s.m == Returned(true)
    ensures s.h.found && s.h.underLock && s.h.swap == Some(Swap(s.h.lockWrites, true, |s.past.renamers|))
  {
    InvReached(s);
  }

  /** Also a cut-over that fails cannot lose a write by a RENAME that was queued under the lock. */
  lemma SwapUnderLockIsSafe(s: State)
    requires Reachable(s) && OwnSwap(s) && s.h.underLock
    ensures s.h.swap.value == Swap(s.h.lockWrites, true, |s.past.renamers|)
  {
    InvReached(s);
  }

  /**
   No send blocks: at most two messages go over each session channel and at most three
   tokens over the channel of four.
   */
  lemma SendsNeverBlock(s: State)
    requires Reachable(s)
    ensures |s.ch.locked| <= 2 && |s.ch.lockSession| <= 2 && |s.ch.unlocked| <= 2
    ensures |s.ch.renameSession| <= 2 && |s.ch.renamed| <= 2
    ensures s.tokens <= s.sent <= 3
  {
    InvReached(s);
  }

  // ----- whatever fails is reported

  /** The locking session is at an operation of the database. */
  predicate LockerOperates(l: Locker) {
    !l.WaitToken? && !l.Defers? && !l.LockerDone?
  }

  /**
   Every operation of the locking session may fail, and so may every operation of the
   renaming session, and the locking session may die. A failure on the way to the lock
   sends the migrator an error, a failure of the unlock too, and a RENAME that fails sends
   an error and swaps nothing.
   */
  lemma FailuresAreReported(s: State)
    requires Reachable(s)
    ensures LockerOperates(s.l) && (s.l.Unlock? ==> !s.db.alive) ==>
              && LockerEnabled(s, false)
              && var t := LockerNext(s, false);
                 && (!PastLock(s.l) ==> t.ch.locked == [false] && PastLock(t.l) && !t.db.held)
                 && (s.l.Unlock? ==> t.ch.unlocked == [false])
                 && t.db.magic == s.db.magic
    ensures Pending(s.r) ==>
              && RenamerEnabled(s, false)
              && var t := RenamerNext(s, false);
                 !Pending(t.r) && t.h.swap == s.h.swap && ((s.r.Issue? || s.r.Queued?) ==> t.ch.renamed == [false])
    ensures s.db.alive ==> Enabled(s, LockerDies) && !Next(s, LockerDies).db.held
  {
    InvReached(s);
  }

  // ----- the lock is always released

  function MigratorRank(m: Migrator, retries: nat): nat {
    match m
    case WaitLocked => retries + 12
    case WaitLockSession => retries + 11
    case WriteChallenge => retries + 10
    case WaitEvents => retries + 9
    case StartRename => retries + 8
    case WaitRenameSession => retries + 7
    case Poll(left) => left + 6
    case CheckLock => 5
    case Release => 4
    case WaitUnlocked => 3
    case WaitRenamed => 2
    case Returning(_) => 1
    case Returned(_) => 0
  }

  function RenamerRank(r: Renamer): nat {
    match r
    case NotStarted => 8
    case BeginRename => 7
    case RenameSession => 6
    case SetTimeout => 5
    case Issue => 4
    case Queued => 3
    case RenameDefers(_) => 2
    case RenameFailed(_) => 1
    case RenamerDone(_) => 0
  }

  /** What the current attempt can still move. */
  function AttemptRank(s: State): nat {
    MigratorRank(s.m, s.retries) + RenamerRank(s.r)
  }

  function Rank(s: State): nat {
    s.attempts * (s.retries + 21) + AttemptRank(s)
  }

  lemma MigratorRankFalls(s: State, o: Outcome)
    requires TokenInv(s) && MigratorEnabled(s, o)
    ensures var t := MigratorNext(s, o);
            AttemptRank(t) < AttemptRank(s) && t.retries == s.retries && t.attempts == s.attempts
  {
  }

  lemma RenamerRankFalls(s: State, ok: bool)
    requires RenamerEnabled(s, ok)
    ensures var t := RenamerNext(s, ok);
            AttemptRank(t) < AttemptRank(s) && t.retries == s.retries && t.attempts == s.attempts
  {
  }

  lemma LockerRankStays(s: State, ok: bool)
    requires LockerEnabled(s, ok)
    ensures var t := LockerNext(s, ok);
            AttemptRank(t) == AttemptRank(s) && t.retries == s.retries && t.attempts == s.attempts
  {
  }

  lemma AgainRankFalls(s: State)
    requires Enabled(s, Again)
    ensures Rank(Next(s, Again)) < Rank(s)
  {
    var n := s.retries + 21;
    assert s.attempts * n == (s.attempts - 1) * n + n;
  }

  /** A move of the migrator, of the current renaming session, or a new attempt. */
  predicate IsMove(step: Step) {
    step.ByMigrator? || step.ByRenamer? || step.Again?
  }

  /** The migrator and the renaming session only ever move forward. */
  lemma RankFalls(s: State, step: Step)
    requires TokenInv(s) && Enabled(s, step)
    ensures if IsMove(step) then Rank(Next(s, step)) < Rank(s) else Rank(Next(s, step)) == Rank(s)
  {
    match step
    case ByMigrator(o) => MigratorRankFalls(s, o);
    case ByLocker(ok) => LockerRankStays(s, ok);
    case ByRenamer(ok) => RenamerRankFalls(s, ok);
    case Again => AgainRankFalls(s);
    case _ =>
  }

  function Moves(steps: seq<Step>): nat {
    if steps == [] then 0 else (if IsMove(steps[0]) then 1 else 0) + Moves(steps[1..])
  }

  lemma {:induction false} MovesBounded(s: State, steps: seq<Step>)
    requires Inv(s) && IsRun(s, steps)
    ensures Moves(steps) + Rank(Final(s, steps)) <= Rank(s)
    decreases |steps|
  {
    if steps != [] {
      RankFalls(s, steps[0]);
      InvKept(s, steps[0]);
      MovesBounded(Next(s, steps[0]), steps[1..]);
    }
  }

  /**
   No stuck table lock. While the locking session waits without a token, the
   migrator or the renaming session can move, whatever database calls return; and
   from any state they move at most `Rank` times. So a token always comes, also
   when the renaming session cannot even begin.
   */
  lemma TokenIsComing(s: State, steps: seq<Step>)
    requires Reachable(s) && IsRun(s, steps)
    ensures Moves(steps) <= Rank(s)
    ensures s.l.WaitToken? && s.tokens == 0 ==> MigratorEnabled(s, Bad) || RenamerEnabled(s, false)
  {
    InvReached(s);
    MovesBounded(s, steps);
  }

  // ----- what the cut-over does not guarantee

  /** Every step of the run is one that does not touch rows. */
  predicate QuietRun(s: State, steps: seq<Step>)
    requires IsRun(s, steps)
    decreases |steps|
  {
    steps == [] || (Rowless(s, steps[0]) && QuietRun(Next(s, steps[0]), steps[1..]))
  }

  /** Some run that does not touch rows goes from `s` to `t`. */
  ghost predicate QuietlyLeads(s: State, t: State) {
    exists steps :: IsRun(s, steps) && QuietRun(s, steps) && Final(s, steps) == t
  }

  lemma {:induction false} RunAppend(s: State, steps: seq<Step>, step: Step)
    requires IsRun(s, steps) && Enabled(Final(s, steps), step)
    ensures IsRun(s, steps + [step]) && Final(s, steps + [step]) == Next(Final(s, steps), step)
    ensures QuietRun(s, steps) && Rowless(Final(s, steps), step) ==> QuietRun(s, steps + [step])
    decreases |steps|
  {
    if steps == [] {
      assert steps + [step] == [step];
      assert IsRun(Next(s, step), [step][1..]);
    } else {
      assert (steps + [step])[0] == steps[0] && (steps + [step])[1..] == steps[1..] + [step];
      RunAppend(Next(s, steps[0]), steps[1..], step);
    }
  }

  /** The run from `s0` to `s` goes on with one more step. */
  lemma LeadOn(s0: State, s: State, step: Step) returns (s': State)
    requires Leads(s0, s) && Enabled(s, step)
    ensures s' == Next(s, step) && Leads(s0, s')
    ensures Inv(s) ==> Inv(s')
  {
    var steps :| IsRun(s0, steps) && Final(s0, steps) == s;
    RunAppend(s0, steps, step);
    s' := Next(s, step);
    if Inv(s) {
      InvKept(s, step);
    }
  }

  lemma QuietOn(s0: State, s: State, step: Step) returns (s': State)
    requires QuietlyLeads(s0, s) && Inv(s) && Enabled(s, step) && Rowless(s, step)
    ensures s' == Next(s, step) && QuietlyLeads(s0, s') && Inv(s')
  {
    var steps :| IsRun(s0, steps) && QuietRun(s0, steps) && Final(s0, steps) == s;
    RunAppend(s0, steps, step);
    s' := Next(s, step);
    InvKept(s, step);
  }

  lemma LeadsNowhere(s: State)
    ensures Leads(s, s) && QuietlyLeads(s, s)
  {
    assert IsRun(s, []) && QuietRun(s, []) && Final(s, []) == s;
  }

  lemma Extend(s: State, step: Step) returns (s': State)
    requires Reachable(s) && Enabled(s, step)
    ensures s' == Next(s, step) && Reachable(s')
  {
    var original: Table, shadow: Table, retries: nat, attempts: nat :|
      Leads(Start(original, shadow, retries, attempts), s);
    s' := LeadOn(Start(original, shadow, retries, attempts), s, step);
  }

  // ----- whether a RENAME can still swap the tables

  /** Attempt `i` is an earlier one, or it is over, or its renaming session was started. */
  predicate Decided(s: State, i: nat) {
    i < |s.past.renamers| || (i == |s.past.renamers| && (s.m.Returned? || !s.r.NotStarted?))
  }

  /**
   With the locking session done, another attempt may begin before the RENAME of
   attempt `i` is finished. The migrator of the current attempt must get to return:
   it waits for its own RENAME after a good unlock, and for ever for a renaming
   session that did not begin.
   */
  predicate MayRepeat(s: State, i: nat) {
    && s.attempts > 0
    && if i < |s.past.renamers| then
         !(s.m.WaitRenameSession? && (s.r == RenameFailed(false) || s.r == RenamerDone(false)))
       else
         s.m.Returning? || s.m.Returned? || (s.m.WaitUnlocked? && s.ch.unlocked != [] && !s.ch.unlocked[0])
  }

  /** The magic table is gone or can still be dropped. */
  predicate MayDrop(s: State, i: nat) {
    s.db.magic ==> !s.l.LockerDone? || s.past.lockers > 0 || MayRepeat(s, i)
  }

  /** The RENAME of attempt `i` may still be granted. */
  predicate MaySwap(s: State, i: nat) {
    s.h.swap.None? && Pending(RenamerOf(s, i)) && MayDrop(s, i)
  }

  predicate SwappedBy(s: State, i: nat) {
    s.h.swap.Some? && s.h.swap.value.attempt == i
  }

  /** The RENAME of attempt `i` has not swapped the tables and cannot. */
  predicate Settled(s: State, i: nat) {
    Decided(s, i) && !SwappedBy(s, i) && !MaySwap(s, i)
  }

  lemma SettledByRenamer(s: State, ok: bool, i: nat)
    requires Inv(s) && Settled(s, i) && RenamerEnabled(s, ok)
    ensures Settled(RenamerNext(s, ok), i)
  {
  }

  lemma SettledByLocker(s: State, ok: bool, i: nat)
    requires Settled(s, i) && LockerEnabled(s, ok)
    ensures Settled(LockerNext(s, ok), i)
  {
  }

  lemma SettledByMigrator(s: State, o: Outcome, i: nat)
    requires Inv(s) && Settled(s, i) && MigratorEnabled(s, o)
    ensures Settled(MigratorNext(s, o), i)
  {
  }

  lemma SettledByPast(s: State, step: PastStep, i: nat)
    requires LockInv(s) && Settled(s, i) && PastEnabled(s, step)
    ensures Settled(PastNext(s, step), i)
  {
  }

  lemma SettledByAgain(s: State, i: nat)
    requires Inv(s) && Settled(s, i) && Enabled(s, Again)
    ensures Settled(Next(s, Again), i)
  {
  }

  lemma SettledKept(s: State, step: Step, i: nat)
    requires Inv(s) && Settled(s, i) && Enabled(s, step)
    ensures Settled(Next(s, step), i)
  {
    match step
    case ByMigrator(o) => SettledByMigrator(s, o, i);
    case ByLocker(ok) => SettledByLocker(s, ok, i);
    case ByRenamer(ok) => SettledByRenamer(s, ok, i);
    case ByPast(x) => SettledByPast(s, x, i);
    case Again => SettledByAgain(s, i);
    case _ =>
  }

  lemma {:induction false} NeverSwaps(s: State, steps: seq<Step>, i: nat)
    requires Inv(s) && Settled(s, i) && IsRun(s, steps)
    ensures Settled(Final(s, steps), i)
    decreases |steps|
  {
    if steps != [] {
      InvKept(s, steps[0]);
      SettledKept(s, steps[0], i);
      NeverSwaps(Next(s, steps[0]), steps[1..], i);
    }
  }

  // ----- how it comes to swap them

  /** Attempt `i` still has its RENAME to come, and nothing was swapped. */
  predicate Awaits(s: State, i: nat) {
    Decided(s, i) && s.h.swap.None? && Pending(RenamerOf(s, i))
  }

  /** From `s` to `t` no row was touched, and the RENAME of attempt `i` was neither issued nor finished. */
  predicate Alike(s: State, t: State, i: nat) {
    && t.db.original == s.db.original && t.db.shadow == s.db.shadow && t.db.writes == s.db.writes
    && t.h.synced == s.h.synced && (RenamerOf(t, i).Queued? <==> RenamerOf(s, i).Queued?)
  }

  /** What the locking session still has to do. */
  function LockerRank(l: Locker): nat {
    match l
    case BeginLock => 11
    case LockSession => 10
    case SetUp => 9
    case DropLeftover => 8
    case CreateMagic => 7
    case Lock => 6
    case WaitToken => 5
    case DropMagic => 4
    case Unlock => 3
    case Defers => 2
    case CleanUp => 1
    case LockerDone(_) => 0
  }

  /** The next step of a locking session that is to give up and clean up. */
  function GivingUp(s: State): bool {
    s.l.BeginLock? || s.l.CleanUp? || ((s.l.DropMagic? || s.l.Unlock?) && s.db.alive)
  }

  /** The locking session leaves the RENAME of attempt `i` and the rows alone. */
  lemma FramedAwaits(s: State, t: State, i: nat)
    requires Awaits(s, i) && LockerFrame(s, t)
    ensures Alike(s, t, i) && Awaits(t, i)
  {
  }

  lemma LockerNearer(s: State)
    requires HoldInv(s) && !s.past.holds && !s.l.LockerDone? && (s.l.WaitToken? ==> s.tokens > 0)
    ensures LockerEnabled(s, GivingUp(s))
    ensures var t := LockerNext(s, GivingUp(s));
            LockerRank(t.l) < LockerRank(s.l) && (t.l.LockerDone? ==> !t.db.magic)
  {
  }

  /** Closer to the end of the locking session, with the RENAME of attempt `i` still to come. */
  predicate Dropping(s: State, t: State, i: nat) {
    && Alike(s, t, i) && Awaits(t, i) && !t.past.holds && (t.l.LockerDone? ==> !t.db.magic)
    && (LockerRank(t.l) < LockerRank(s.l) || (t.l == s.l && AttemptRank(t) < AttemptRank(s)))
  }

  lemma DroppingByLocker(s: State, i: nat)
    requires Inv(s) && Awaits(s, i) && !s.past.holds && !s.l.LockerDone? && (s.l.WaitToken? ==> s.tokens > 0)
    ensures LockerEnabled(s, GivingUp(s)) && Dropping(s, LockerNext(s, GivingUp(s)), i)
  {
    LockerNearer(s);
    LockerFrames(s, GivingUp(s));
    FramedAwaits(s, LockerNext(s, GivingUp(s)), i);
  }

  /** The step that brings the migrator closer to its return, or to sending a token. */
  function Nudge(s: State): Step {
    if s.m.WaitRenameSession? && s.ch.renameSession == [] then ByRenamer(true)
    else if s.m.WaitRenamed? && s.ch.renamed == [] then ByRenamer(false)
    else ByMigrator(GiveUp)
  }

  /** While the locking session waits without a token, the migrator can be brought closer to sending one. */
  lemma DroppingByMigrator(s: State, i: nat)
    requires Inv(s) && Awaits(s, i) && !s.past.holds && s.l.WaitToken? && s.tokens == 0
    requires Nudge(s) == ByMigrator(GiveUp)
    ensures MigratorEnabled(s, GiveUp) && Dropping(s, MigratorNext(s, GiveUp), i)
  {
  }

  lemma DroppingByRenamer(s: State, i: nat)
    requires Inv(s) && Awaits(s, i) && !s.past.holds && s.l.WaitToken? && s.tokens == 0
    requires Nudge(s).ByRenamer?
    ensures RenamerEnabled(s, Nudge(s).ok) && Dropping(s, RenamerNext(s, Nudge(s).ok), i)
  {
  }

  /** The next step to the end of the locking session. */
  function DropStep(s: State): Step {
    if s.l.WaitToken? && s.tokens == 0 then Nudge(s) else ByLocker(GivingUp(s))
  }

  lemma DropStepDrops(s: State, i: nat)
    requires Inv(s) && Awaits(s, i) && !s.past.holds && !s.l.LockerDone?
    ensures Enabled(s, DropStep(s)) && Rowless(s, DropStep(s)) && Dropping(s, Next(s, DropStep(s)), i)
  {
    if !s.l.WaitToken? || s.tokens > 0 {
      DroppingByLocker(s, i);
    } else if Nudge(s).ByRenamer? {
      DroppingByRenamer(s, i);
    } else {
      DroppingByMigrator(s, i);
    }
  }

  lemma Unheld(s: State)
    requires HoldInv(s) && s.l.LockerDone? && !s.past.holds
    ensures !Locked(s)
  {
  }

  /** The locking session gives up and cleans up, and the magic table is gone. */
  lemma DroppedByLocker(s0: State, s: State, i: nat) returns (s': State)
    requires QuietlyLeads(s0, s) && Inv(s) && Awaits(s, i) && !s.past.holds && !s.l.LockerDone?
    ensures QuietlyLeads(s0, s') && Inv(s') && Alike(s, s', i) && Awaits(s', i)
    ensures !Locked(s') && !s'.db.magic
    decreases LockerRank(s.l), AttemptRank(s)
  {
    DropStepDrops(s, i);
    s' := QuietOn(s0, s, DropStep(s));
    if s'.l.LockerDone? {
      Unheld(s');
    } else {
      s' := DroppedByLocker(s0, s', i);
    }
  }

  lemma ReturnByMigrator(s: State, i: nat)
    requires Inv(s) && Awaits(s, i) && !Locked(s) && s.l.LockerDone? && MayRepeat(s, i) && !s.m.Returned?
    requires Nudge(s) == ByMigrator(GiveUp)
    ensures MigratorEnabled(s, GiveUp)
    ensures Nearer(s, MigratorNext(s, GiveUp), i)
  {
  }

  lemma ReturnByRenamer(s: State, i: nat)
    requires Inv(s) && Awaits(s, i) && !Locked(s) && s.l.LockerDone? && MayRepeat(s, i) && !s.m.Returned?
    requires Nudge(s).ByRenamer?
    ensures RenamerEnabled(s, Nudge(s).ok)
    ensures Nearer(s, RenamerNext(s, Nudge(s).ok), i)
  {
  }

  /** Closer to a return, with the RENAME of attempt `i` still to come. */
  predicate Nearer(s: State, t: State, i: nat) {
    && Alike(s, t, i) && Awaits(t, i) && t.l == s.l && t.past == s.past && t.db == s.db
    && MayRepeat(t, i) && AttemptRank(t) < AttemptRank(s)
  }

  lemma Over(s0: State, s: State, i: nat) returns (s': State)
    requires QuietlyLeads(s0, s) && Inv(s) && Awaits(s, i) && !Locked(s) && s.l.LockerDone? && MayRepeat(s, i)
    ensures QuietlyLeads(s0, s') && Inv(s') && Alike(s, s', i) && Awaits(s', i) && !Locked(s')
    ensures s'.m == Returned(false) && s'.attempts > 0
    decreases AttemptRank(s)
  {
    if s.m.Returned? {
      s' := s;
    } else {
      if Nudge(s).ByRenamer? {
        ReturnByRenamer(s, i);
      } else {
        ReturnByMigrator(s, i);
      }
      s' := QuietOn(s0, s, Nudge(s));
      assert Nearer(s, s', i);
      s' := Over(s0, s', i);
    }
  }

  /** The next attempt drops what the earlier ones left of the magic table. */
  lemma DroppedByNext(s0: State, s: State, i: nat) returns (s': State)
    requires QuietlyLeads(s0, s) && Inv(s) && Awaits(s, i) && !Locked(s) && s.m == Returned(false) && s.attempts > 0
    ensures QuietlyLeads(s0, s') && Inv(s') && Alike(s, s', i) && Awaits(s', i) && !Locked(s') && !s'.db.magic
  {
    s' := QuietOn(s0, s, Again);
    s' := QuietOn(s0, s', ByLocker(true));
    s' := QuietOn(s0, s', ByLocker(true));
    s' := QuietOn(s0, s', ByLocker(true));
    s' := QuietOn(s0, s', ByLocker(true));
  }

  /** Whoever holds the lock loses it. */
  lemma Unlocked(s0: State, s: State, i: nat) returns (s': State)
    requires QuietlyLeads(s0, s) && Inv(s) && Awaits(s, i)
    ensures QuietlyLeads(s0, s') && Inv(s') && Alike(s, s', i) && Awaits(s', i) && !Locked(s')
    ensures s'.db.magic == s.db.magic && s'.l == s.l && s'.past.lockers == s.past.lockers
    ensures MayRepeat(s, i) ==> MayRepeat(s', i)
  {
    s' := s;
    if s.db.held {
      s' := QuietOn(s0, s', LockerDies);
    }
    if s'.past.holds {
      s' := QuietOn(s0, s', ByPast(Unlocks));
    }
  }

  /** The lock and the magic table go, and the RENAME is where it was. */
  lemma Cleared(s0: State, s: State, i: nat) returns (s': State)
    requires QuietlyLeads(s0, s) && Inv(s) && Decided(s, i) && MaySwap(s, i)
    ensures QuietlyLeads(s0, s') && Inv(s') && Alike(s, s', i) && Awaits(s', i) && !Locked(s') && !s'.db.magic
  {
    s' := Unlocked(s0, s, i);
    if s.db.magic {
      if s.past.lockers > 0 {
        s' := QuietOn(s0, s', ByPast(CleansUp(true)));
      } else if !s.l.LockerDone? {
        s' := DroppedByLocker(s0, s', i);
      } else {
        s' := Over(s0, s', i);
        s' := DroppedByNext(s0, s', i);
      }
    }
  }

  /** The RENAME of attempt `i` is granted at once, or comes closer to being issued. */
  predicate RenameNearer(s: State, t: State, i: nat) {
    if RenamerOf(s, i).Queued? then
      t.h.swap == Swapped(s, i)
    else
      Awaits(t, i) && t.db == s.db && !Locked(t) && RenamerRank(RenamerOf(t, i)) < RenamerRank(RenamerOf(s, i))
  }

  lemma OwnRenameNearer(s: State)
    requires Awaits(s, |s.past.renamers|) && !Locked(s) && !s.db.magic
    ensures RenamerEnabled(s, true) && RenameNearer(s, RenamerNext(s, true), |s.past.renamers|)
  {
  }

  lemma PastRenameNearer(s: State, i: nat)
    requires i < |s.past.renamers| && Awaits(s, i) && !Locked(s) && !s.db.magic
    ensures PastEnabled(s, Renames(i, true)) && RenameNearer(s, PastRenames(s, i, true), i)
  {
  }

  /** Without a lock and a magic table the RENAME is granted. */
  lemma Granted(s0: State, s: State, i: nat) returns (s': State)
    requires QuietlyLeads(s0, s) && Inv(s) && Awaits(s, i) && !Locked(s) && !s.db.magic
    ensures QuietlyLeads(s0, s') && s'.h.swap == Swapped(s, i)
    decreases RenamerRank(RenamerOf(s, i))
  {
    if i < |s.past.renamers| {
      PastRenameNearer(s, i);
      s' := QuietOn(s0, s, ByPast(Renames(i, true)));
    } else {
      OwnRenameNearer(s);
      s' := QuietOn(s0, s, ByRenamer(true));
    }
    assert RenameNearer(s, s', i);
    if !RenamerOf(s, i).Queued? {
      s' := Granted(s0, s', i);
    }
  }

  /** The RENAMEs of other attempts give up waiting, and writes can come again. */
  lemma Flushed(s0: State, s: State, i: nat, n: nat) returns (s': State)
    requires QuietlyLeads(s0, s) && Inv(s) && Awaits(s, i) && !Locked(s) && !s.db.magic && !RenamerOf(s, i).Queued?
    requires n <= |s.past.renamers| && forall k | 0 <= k < n :: !s.past.renamers[k].Queued?
    ensures QuietlyLeads(s0, s') && Inv(s') && Alike(s, s', i) && Awaits(s', i) && !Locked(s') && !s'.db.magic
    ensures !AnyQueued(s')
    decreases |s.past.renamers| - n
  {
    s' := s;
    if n < |s.past.renamers| {
      if s.past.renamers[n].Queued? {
        s' := QuietOn(s0, s, ByPast(Renames(n, false)));
      }
      s' := Flushed(s0, s', i, n + 1);
    } else if s.r.Queued? {
      s' := QuietOn(s0, s, ByRenamer(false));
    }
  }

  /** Some continuation of `s` swaps the tables by the RENAME of attempt `i`. */
  ghost predicate CanSwap(s: State, i: nat) {
    exists t :: Leads(s, t) && SwappedBy(t, i)
  }

  lemma QuietIsRun(s: State, t: State)
    requires QuietlyLeads(s, t)
    ensures Leads(s, t)
  {
  }

  /**
   Also a cut-over that returns an error may have swapped the tables, or swap them
   later: exactly when its RENAME is still on its way and the magic table is gone, or
   can still be dropped by a locking session or by the next attempt.
   */
  lemma SwapsExactlyWhen(s: State, i: nat)
    requires Reachable(s) && Decided(s, i)
    ensures CanSwap(s, i) <==> SwappedBy(s, i) || MaySwap(s, i)
  {
    InvReached(s);
    LeadsNowhere(s);
    if MaySwap(s, i) {
      var t := Cleared(s, s, i);
      t := Granted(s, t, i);
      QuietIsRun(s, t);
    } else if !SwappedBy(s, i) {
      forall steps | IsRun(s, steps) ensures Settled(Final(s, steps), i) {
        NeverSwaps(s, steps, i);
      }
    }
  }

  // ----- whether it can lose a write

  /** The RENAME of attempt `i` swapped tables that differed. */
  predicate LostBy(s: State, i: nat) {
    SwappedBy(s, i) && !s.h.swap.value.agreed
  }

  /** Once the tables are swapped, they stay so. */
  lemma SwapKept(s: State, step: Step)
    requires Enabled(s, step) && s.h.swap.Some?
    ensures Next(s, step).h.swap == s.h.swap
  {
  }

  lemma DecidedByMigrator(s: State, o: Outcome, i: nat)
    requires TokenInv(s) && Decided(s, i) && MigratorEnabled(s, o)
    ensures Decided(MigratorNext(s, o), i)
  {
  }

  lemma DecidedByRenamer(s: State, ok: bool, i: nat)
    requires Decided(s, i) && RenamerEnabled(s, ok)
    ensures Decided(RenamerNext(s, ok), i)
  {
  }

  lemma DecidedKept(s: State, step: Step, i: nat)
    requires TokenInv(s) && Decided(s, i) && Enabled(s, step)
    ensures Decided(Next(s, step), i)
  {
    match step
    case ByMigrator(o) => DecidedByMigrator(s, o, i);
    case ByRenamer(ok) => DecidedByRenamer(s, ok, i);
    case ByLocker(ok) => LockerFrames(s, ok);
    case _ =>
  }

  // ----- the hazards are real

  /** The first of two attempts, before any swap. */
  predicate First(s: State) {
    s.past == Past(0, false, []) && s.attempts == 1 && s.retries == 1 && s.h.swap.None?
  }

  lemma LockingStarted() returns (s: State)
    ensures Reachable(s) && s.l.SetUp? &&
            s == Start(map[], map[], 1, 1).(l := s.l, ch := Channels([], [true], [], [], []))
  {
    s := Start(map[], map[], 1, 1);
    LeadsNowhere(s);
    s := Extend(s, ByLocker(true));
    s := Extend(s, ByLocker(true));
  }

  lemma MagicCreated() returns (s: State)
    ensures Reachable(s) && s.l.Lock?
    ensures s == Start(map[], map[], 1, 1).(l := s.l, ch := Channels([], [true], [], [], []), db := s.db)
    ensures s.db == Database(true, false, true, map[], map[], 0)
  {
    s := LockingStarted();
    s := Extend(s, ByLocker(true));
    s := Extend(s, ByLocker(true));
    s := Extend(s, ByLocker(true));
  }

  /** The locking session locks the tables and waits. */
  lemma TablesLocked() returns (s: State)
    ensures Reachable(s) && First(s) && s.m.WaitLocked? && s.l.WaitToken? && s.r.NotStarted?
    ensures s.tokens == s.sent == 0 && !s.renameFailed
    ensures s.ch == Channels([true], [true], [], [], [])
    ensures s.db == Database(true, true, true, map[], map[], 0)
  {
    s := MagicCreated();
    s := Extend(s, ByLocker(true));
  }

  /** The table is locked and the migrator starts the renaming session. */
  lemma RenameStarted() returns (s: State)
    ensures Reachable(s) && First(s) && s.m.WaitRenameSession? && s.r.BeginRename? && s.l.WaitToken? && s.tokens == 0
    ensures s.db.alive && s.db.held && s.db.magic && s.ch.renameSession == [] && !s.renameFailed
  {
    s := TablesLocked();
    s := Extend(s, ByMigrator(Bad));
    s := Extend(s, ByMigrator(Bad));
    s := Extend(s, ByMigrator(Good(map[])));
    s := Extend(s, ByMigrator(Good(map[])));
    s := Extend(s, ByMigrator(Good(map[])));
  }

  /** The renaming session is about to issue the RENAME when the migrator gives up on it. */
  lemma GivesUp() returns (s: State)
    ensures Reachable(s) && First(s) && s.m == Returned(false) && s.r.Issue? && s.l.WaitToken? && s.tokens > 0
    ensures s.db.alive && s.db.magic
  {
    s := RenameStarted();
    s := Extend(s, ByRenamer(true));
    s := Extend(s, ByRenamer(true));
    s := Extend(s, ByRenamer(true));
    s := Extend(s, ByMigrator(Bad));
    s := Extend(s, ByMigrator(Bad));
    s := Extend(s, ByMigrator(Bad));
  }

  /**
   The hazard is real: the migrator gives up waiting for the RENAME to appear and
   returns an error, the lock is released, and only then is the RENAME issued.
   */
  lemma GivingUpIsReachable() returns (s: State)
    ensures Reachable(s) && s.m == Returned(false) && s.r.Issue? && !Locked(s) && !s.db.magic
  {
    s := GivesUp();
    s := Extend(s, ByLocker(true));
    s := Extend(s, ByLocker(true));
    s := Extend(s, ByLocker(true));
  }

  lemma FirstDropFails() returns (s: State)
    ensures Reachable(s) && First(s) && s.m == Returned(false) && s.r.Issue? && s.db.magic && s.l.Defers?
  {
    s := GivesUp();
    s := Extend(s, ByLocker(true));
    s := Extend(s, ByLocker(false));
    s := Extend(s, ByLocker(true));
  }

  /**
   Both drops of the magic table fail, so that no session of the attempt drops it any
   more: the RENAME that is still to be issued can be granted only after the next
   attempt has dropped it.
   */
  lemma LeftoverMagicIsReachable() returns (s: State)
    ensures Reachable(s) && s.m == Returned(false) && s.r.Issue? && s.db.magic
    ensures s.l.LockerDone? && s.past.lockers == 0 && s.attempts == 1 && MaySwap(s, 0)
  {
    s := FirstDropFails();
    s := Extend(s, ByLocker(true));
    s := Extend(s, ByLocker(false));
  }

  /**
   A second way to fail: the RENAME is queued and found, the check of the lock errs,
   and the token sent on return lets the RENAME through.
   */
  lemma FailsYetSwaps() returns (s: State)
    ensures Reachable(s) && s.m == Returned(false) && s.h.found && s.h.underLock && SwappedBy(s, 0)
  {
    s := CheckErrs();
    s := Extend(s, ByLocker(true));
    s := Extend(s, ByLocker(true));
    s := Extend(s, ByLocker(true));
    s := Extend(s, ByRenamer(true));
  }

  lemma CheckErrs() returns (s: State)
    ensures Reachable(s) && First(s) && s.m == Returned(false) && s.h.found && s.h.underLock && s.r.Queued?
    ensures s.l.WaitToken? && s.tokens > 0 && s.db.alive
  {
    s := RenameQueued();
    s := Extend(s, ByMigrator(Bad));
    s := Extend(s, ByMigrator(Good(map[])));
    s := Extend(s, ByMigrator(Bad));
    s := Extend(s, ByMigrator(Bad));
  }

  lemma RenameQueued() returns (s: State)
    ensures Reachable(s) && First(s) && s.m.WaitRenameSession? && s.r.Queued? && s.h.underLock && s.l.WaitToken?
    ensures s.db.alive && s.ch.renameSession == [true] && !s.renameFailed
  {
    s := RenameStarted();
    s := Extend(s, ByRenamer(true));
    s := Extend(s, ByRenamer(true));
    s := Extend(s, ByRenamer(true));
    s := Extend(s, ByRenamer(true));
  }

  /** The migrator waits for the renaming session's id, which will never come. */
  predicate WaitsForever(s: State) {
    s.m.WaitRenameSession? && s.ch.renameSession == [] && s.r.RenamerDone?
  }

  /** Exactly a renaming session that failed to begin leaves the migrator waiting for its id. */
  lemma HangsExactlyWithoutBegin(s: State)
    requires Reachable(s) && s.m.WaitRenameSession?
    ensures WaitsForever(s) <==> s.r == RenamerDone(false)
  {
    InvReached(s);
  }

  lemma {:induction false} WaitingIsForever(s: State, steps: seq<Step>)
    requires WaitsForever(s) && IsRun(s, steps)
    ensures WaitsForever(Final(s, steps))
    decreases |steps|
  {
    if steps != [] {
      WaitingIsForever(Next(s, steps[0]), steps[1..]);
    }
  }

  lemma HangIsReachable() returns (s: State)
    ensures Reachable(s) && WaitsForever(s)
  {
    s := RenameStarted();
    s := Extend(s, ByRenamer(false));
    s := Extend(s, ByRenamer(true));
  }
}
