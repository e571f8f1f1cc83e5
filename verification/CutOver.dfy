/**
 The atomic cut-over as a state machine: the migrator, the session that locks
 the original and the magic table, the session that renames, and the server. A
 cut-over that fails may be attempted again while the sessions of earlier attempts
 are still at work.

 A write to the original is blocked by a lock and by a queued RENAME; a queued
 RENAME is granted once no lock is held, and fails while the old table's name is
 occupied, by the magic table or by an earlier swap. The locking session may die at
 any step.
 */
module CutOver {
  import opened Wrappers
  import Protocol

  type Table = Protocol.Table

  /** `Returning` still has the deferred token to send. */
  datatype Migrator =
    | WaitLocked
    | WaitLockSession
    | WriteChallenge
    | WaitEvents
    | StartRename
    | WaitRenameSession
    | Poll(left: nat)
    | CheckLock
    | Release
    | WaitUnlocked
    | WaitRenamed
    | Returning(ok: bool)
    | Returned(ok: bool)

  datatype Locker =
    | BeginLock
    | LockSession
    | SetUp
    | DropLeftover
    | CreateMagic
    | Lock
    | WaitToken
    | DropMagic
    | Unlock
    | Defers
    | CleanUp
    | LockerDone(begun: bool)

  datatype Renamer =
    | NotStarted
    | BeginRename
    | RenameSession
    | SetTimeout
    | Issue
    | Queued
    | RenameDefers(failed: bool)
    | RenameFailed(begun: bool)
    | RenamerDone(begun: bool)

  /**
   When the tables were swapped: the number of writes to the original by then, whether
   the two tables agreed, and the attempt whose RENAME it was.
   */
  datatype Swap = Swap(writes: nat, agreed: bool, attempt: nat)

  /**
   The sessions' channels, each holding everything ever sent on it: `true` stands
   for a nil error or a session id. The migrator receives from each only once, so
   it always receives the first message.
   */
  datatype Channels = Channels(locked: seq<bool>, lockSession: seq<bool>, unlocked: seq<bool>,
                               renameSession: seq<bool>, renamed: seq<bool>)

  /** `alive` and `held` are about the locking session's connection and its table locks. */
  datatype Database = Database(alive: bool, held: bool, magic: bool, original: Table, shadow: Table, writes: nat)

  /**
   What happened: the writes by the time of the lock, of the challenge and of the last
   challenge whose sentinel was heard, whether the RENAME was seen in the process list,
   and whether it was queued under the lock.
   */
  datatype History = History(lockWrites: nat, challengeWrites: nat, synced: Option<nat>, found: bool, underLock: bool,
                             swap: Option<Swap>)

  /**
   What is left of earlier attempts: how many of their locking sessions are not done,
   whether one of these still holds the lock, and where their renaming sessions are.
   The current attempt has number `|renamers|`.
   */
  datatype Past = Past(lockers: nat, holds: bool, renamers: seq<Renamer>)

  /**
   `tokens` is the content of okToUnlockTable, `sent` how many tokens were ever sent on
   it, and `attempts` how often the cut-over may be attempted again.
   */
  datatype State = State(m: Migrator, l: Locker, r: Renamer, retries: nat, attempts: nat, tokens: nat, sent: nat,
                         renameId: bool, renameFailed: bool, ch: Channels, db: Database, h: History, past: Past)

  function Start(original: Table, shadow: Table, retries: nat, attempts: nat): State {
    State(WaitLocked, BeginLock, NotStarted, retries, attempts, 0, 0, false, false,
          Channels([], [], [], [], []), Database(true, false, false, original, shadow, 0),
          History(0, 0, None, false, false, None), Past(0, false, []))
  }

  /** The renaming session of attempt `i`. */
  function RenamerOf(s: State, i: nat): Renamer {
    if i < |s.past.renamers| then s.past.renamers[i] else s.r
  }

  predicate AnyQueued(s: State) {
    s.r.Queued? || exists i :: 0 <= i < |s.past.renamers| && s.past.renamers[i].Queued?
  }

  /** Some session holds the lock. */
  predicate Locked(s: State) {
    s.db.held || s.past.holds
  }

  // ----- the migrator

  /** How a fallible operation turns out; `GiveUp` is a cancelled migration during polling. */
  datatype Outcome = Good(table: Table) | Bad | GiveUp

  predicate MigratorEnabled(s: State, o: Outcome) {
    match s.m
    case WaitLocked => s.ch.locked != []
    case WaitLockSession => s.ch.lockSession != []
    // The sentinel comes when all changes logged before the challenge are replayed: if there were
    // no later ones, the ghost then equals the original (ProtocolTheorems.GhostStaysEqual; derived
    // for every run of the two machines together in CutOverReplay.LinkedByHearing).
    case WaitEvents => o.Good? && s.db.writes == s.h.challengeWrites ==> o.table == s.db.original
    case WaitRenameSession => s.ch.renameSession != []
    case Poll(_) => o.Good? && !s.renameFailed ==> s.r.Queued? && s.renameId
    case CheckLock => o.Good? ==> s.db.alive
    case WaitUnlocked => s.ch.unlocked != []
    case WaitRenamed => s.ch.renamed != []
    case Returned(_) => false
    case _ => true
  }

  function SendToken(s: State, m: Migrator): State {
    s.(m := m, tokens := s.tokens + 1, sent := s.sent + 1)
  }

  function DoPoll(s: State, left: nat, o: Outcome): State {
    if o.GiveUp? then SendToken(s, Returning(false))
    else if s.renameFailed then s.(m := CheckLock)
    else if o.Good? then s.(m := CheckLock, h := s.h.(found := true))
    else if o.Bad? && left > 1 then s.(m := Poll(left - 1))
    else SendToken(s, Returning(false))
  }

  function MigratorNext(s: State, o: Outcome): State
    requires MigratorEnabled(s, o)
  {
    match s.m
    case WaitLocked => s.(m := if s.ch.locked[0] then WaitLockSession else Returning(false))
    case WaitLockSession => s.(m := WriteChallenge)
    case WriteChallenge =>
      if o.Good? then s.(m := WaitEvents, h := s.h.(challengeWrites := s.db.writes)) else s.(m := Returning(false))
    case WaitEvents =>
      if o.Good? then
        s.(m := StartRename, db := s.db.(shadow := o.table), h := s.h.(synced := Some(s.h.challengeWrites)))
      else s.(m := Returning(false))
    case StartRename => if o.Good? then s.(m := WaitRenameSession, r := BeginRename) else s.(m := Returning(false))
    case WaitRenameSession => s.(m := Poll(s.retries), renameId := s.ch.renameSession[0])
    case Poll(left) => DoPoll(s, left, o)
    case CheckLock => s.(m := if o.Good? then Release else Returning(false))
    case Release => SendToken(s, WaitUnlocked)
    case WaitUnlocked => s.(m := if s.ch.unlocked[0] then WaitRenamed else Returning(false))
    case WaitRenamed => s.(m := Returning(s.ch.renamed[0]))
    case Returning(ok) => SendToken(s, Returned(ok))
    case Returned(_) => s
  }

  // ----- the locking session

  predicate LockerEnabled(s: State, ok: bool) {
    match s.l
    // A table that is locked cannot be dropped, and one that is not a magic table must not be.
    case DropLeftover => ok ==> s.h.swap.None? && (s.db.magic ==> !s.past.holds)
    case CreateMagic => ok ==> s.h.swap.None? && !s.db.magic
    case Lock => ok ==> s.db.alive && !Locked(s) && !AnyQueued(s) && (s.db.magic || s.h.swap.Some?)
    case WaitToken => s.tokens > 0
    case DropMagic => ok ==> s.db.alive
    case Unlock => ok == s.db.alive
    case CleanUp => ok ==> !s.past.holds
    case LockerDone(_) => false
    case _ => true
  }

  function FailLock(s: State, l: Locker): State {
    s.(ch := s.ch.(locked := s.ch.locked + [false]), l := l)
  }

  function LockerNext(s: State, ok: bool): State
    requires LockerEnabled(s, ok)
  {
    match s.l
    case BeginLock => if ok then s.(l := LockSession) else FailLock(s, LockerDone(false))
    case LockSession =>
      if ok then s.(ch := s.ch.(lockSession := s.ch.lockSession + [true]), l := SetUp) else FailLock(s, Defers)
    case SetUp => if ok then s.(l := DropLeftover) else FailLock(s, Defers)
    case DropLeftover => if ok then s.(db := s.db.(magic := false), l := CreateMagic) else FailLock(s, Defers)
    case CreateMagic => if ok then s.(db := s.db.(magic := true), l := Lock) else FailLock(s, Defers)
    case Lock =>
      if ok then
        s.(db := s.db.(held := true), h := s.h.(lockWrites := s.db.writes),
           ch := s.ch.(locked := s.ch.locked + [true]), l := WaitToken)
      else FailLock(s, Defers)
    case WaitToken => s.(tokens := s.tokens - 1, l := DropMagic)
    case DropMagic => s.(db := s.db.(magic := s.db.magic && !ok), l := Unlock)
    case Unlock => s.(db := s.db.(held := false), ch := s.ch.(unlocked := s.ch.unlocked + [ok]), l := Defers)
    case Defers =>
      s.(ch := s.ch.(lockSession := s.ch.lockSession + [false], locked := s.ch.locked + [false],
                     unlocked := s.ch.unlocked + [false]), l := CleanUp)
    case CleanUp => s.(db := s.db.(magic := s.db.magic && !ok), l := LockerDone(true))
    case LockerDone(_) => s
  }

  // ----- the renaming session

  predicate RenamerEnabled(s: State, ok: bool) {
    match s.r
    case NotStarted => false
    case Queued => ok ==> !Locked(s)
    case RenamerDone(_) => false
    case _ => true
  }

  function Swapped(s: State, attempt: nat): Option<Swap> {
    Some(Swap(s.db.writes, s.db.original == s.db.shadow, attempt))
  }

  /** The server grants the RENAME, or the RENAME fails. */
  function FinishRename(s: State, granted: bool): State {
    if granted && !s.db.magic && s.h.swap.None? then
      s.(h := s.h.(swap := Swapped(s, |s.past.renamers|)),
         ch := s.ch.(renamed := s.ch.renamed + [true]), r := RenameDefers(false))
    else
      s.(ch := s.ch.(renamed := s.ch.renamed + [false]), r := RenameDefers(true))
  }

  function RenamerNext(s: State, ok: bool): State
    requires RenamerEnabled(s, ok)
  {
    match s.r
    case NotStarted => s
    case BeginRename => s.(r := if ok then RenameSession else RenameFailed(false))
    case RenameSession =>
      if ok then s.(ch := s.ch.(renameSession := s.ch.renameSession + [true]), r := SetTimeout)
      else s.(r := RenameDefers(true))
    case SetTimeout => s.(r := if ok then Issue else RenameDefers(true))
    case Issue => if ok then s.(r := Queued, h := s.h.(underLock := s.db.held)) else FinishRename(s, false)
    case Queued => FinishRename(s, ok)
    case RenameDefers(failed) =>
      s.(ch := s.ch.(renameSession := s.ch.renameSession + [false], renamed := s.ch.renamed + [false]),
         r := if failed then RenameFailed(true) else RenamerDone(true))
    case RenameFailed(begun) => SendToken(s, s.m).(renameFailed := true, r := RenamerDone(begun))
    case RenamerDone(_) => s
  }

  // ----- earlier attempts

  /** The RENAME is still to come. */
  predicate Pending(r: Renamer) {
    r.BeginRename? || r.RenameSession? || r.SetTimeout? || r.Issue? || r.Queued?
  }

  function Advanced(r: Renamer): Renamer
    requires Pending(r) && !r.Queued?
  {
    match r
    case BeginRename => RenameSession
    case RenameSession => SetTimeout
    case SetTimeout => Issue
    case Issue => Queued
  }

  datatype PastStep =
    | DropLocked(ok: bool)
    | Unlocks
    | CleansUp(ok: bool)
    | Renames(i: nat, ok: bool)

  predicate PastEnabled(s: State, step: PastStep) {
    var p := s.past;
    match step
    case DropLocked(_) => p.holds
    case Unlocks => p.holds
    case CleansUp(ok) => p.lockers > (if p.holds then 1 else 0) && (ok ==> !Locked(s))
    case Renames(i, ok) =>
      i < |p.renamers| && Pending(p.renamers[i]) && (p.renamers[i].Queued? && ok ==> !Locked(s))
  }

  /** A step of an earlier attempt's renaming session; its messages reach nobody any more. */
  function PastRenames(s: State, i: nat, ok: bool): State
    requires PastEnabled(s, Renames(i, ok))
  {
    var r := s.past.renamers[i];
    var r' := if r.Queued? || !ok then RenamerDone(true) else Advanced(r);
    s.(past := s.past.(renamers := s.past.renamers[i := r']),
       h := if r.Queued? && ok && !s.db.magic && s.h.swap.None? then s.h.(swap := Swapped(s, i)) else s.h)
  }

  function PastNext(s: State, step: PastStep): State
    requires PastEnabled(s, step)
  {
    match step
    case DropLocked(ok) => s.(db := s.db.(magic := s.db.magic && !ok))
    case Unlocks => s.(past := s.past.(holds := false))
    case CleansUp(ok) => s.(past := s.past.(lockers := s.past.lockers - 1), db := s.db.(magic := s.db.magic && !ok))
    case Renames(i, ok) => PastRenames(s, i, ok)
  }

  /** The next attempt, with new sessions and new channels. */
  function DoAgain(s: State): State
    requires s.attempts > 0
  {
    s.(m := WaitLocked, l := BeginLock, r := NotStarted, attempts := s.attempts - 1, tokens := 0, sent := 0,
       renameId := false, renameFailed := false, ch := Channels([], [], [], [], []),
       db := s.db.(alive := true, held := false), h := s.h.(found := false, underLock := false),
       past := Past(s.past.lockers + if s.l.LockerDone? then 0 else 1, Locked(s), s.past.renamers + [s.r]))
  }

  // ----- everybody else

  datatype Step =
    | ByMigrator(outcome: Outcome)
    | ByLocker(ok: bool)
    | ByRenamer(ok: bool)
    | ByPast(past: PastStep)
    | Again
    | Write(table: Table)
    | Replay(table: Table)
    | LockerDies

  predicate Enabled(s: State, step: Step) {
    match step
    case ByMigrator(o) => MigratorEnabled(s, o)
    case ByLocker(ok) => LockerEnabled(s, ok)
    case ByRenamer(ok) => RenamerEnabled(s, ok)
    case ByPast(x) => PastEnabled(s, x)
    case Again => s.m == Returned(false) && s.attempts > 0
    case Write(_) => !Locked(s) && !AnyQueued(s) && s.h.swap.None?
    // The ghost changes only while there are changes left to replay (ProtocolTheorems.GhostStaysEqual
    // and CutOverReplay.LinkedByProcess).
    case Replay(_) => s.h.swap.None? && s.h.synced != Some(s.db.writes)
    case LockerDies => s.db.alive
  }

  /** The sentinel was received: the renaming goroutine has been started or is about to be. */
  predicate AfterEvents(m: Migrator, r: Renamer) {
    m.StartRename? || !r.NotStarted?
  }

  function Next(s: State, step: Step): State
    requires Enabled(s, step)
  {
    match step
    case ByMigrator(o) => MigratorNext(s, o)
    case ByLocker(ok) => LockerNext(s, ok)
    case ByRenamer(ok) => RenamerNext(s, ok)
    case ByPast(x) => PastNext(s, x)
    case Again => DoAgain(s)
    case Write(table) => s.(db := s.db.(original := table, writes := s.db.writes + 1))
    case Replay(table) => s.(db := s.db.(shadow := table))
    case LockerDies => s.(db := s.db.(alive := false, held := false))
  }

  /** The steps that do not touch rows; a challenge and its sentinel are not among them. */
  predicate Rowless(s: State, step: Step) {
    match step
    case ByMigrator(o) => o.Good? ==> !s.m.WriteChallenge? && !s.m.WaitEvents?
    case Write(_) => false
    case Replay(_) => false
    case _ => true
  }

  predicate IsRun(s: State, steps: seq<Step>)
    decreases |steps|
  {
    steps == [] || (Enabled(s, steps[0]) && IsRun(Next(s, steps[0]), steps[1..]))
  }

  function Final(s: State, steps: seq<Step>): State
    requires IsRun(s, steps)
    decreases |steps|
  {
    if steps == [] then s else Final(Next(s, steps[0]), steps[1..])
  }

  // ----- invariants

  /** The locking session is past its attempt to lock. */
  predicate PastLock(l: Locker) {
    !l.BeginLock? && !l.LockSession? && !l.SetUp? && !l.DropLeftover? && !l.CreateMagic? && !l.Lock?
  }

  predicate MayHold(l: Locker) {
    l.WaitToken? || l.DropMagic? || l.Unlock?
  }

  /** The migrator saw the table locked and has not sent a token yet. */
  predicate BeforeRelease(m: Migrator) {
    m.WaitLockSession? || m.WriteChallenge? || m.WaitEvents? || m.StartRename? ||
    m.WaitRenameSession? || m.Poll? || m.CheckLock? || m.Release?
  }

  predicate Challenged(m: Migrator, r: Renamer) {
    m.WaitEvents? || AfterEvents(m, r)
  }

  predicate HoldInv(s: State) {
    && (s.db.held <==> MayHold(s.l) && s.db.alive)
    && (s.db.held ==> s.db.writes == s.h.lockWrites && !s.past.holds)
    && (s.past.holds ==> s.past.lockers > 0)
    && s.h.lockWrites <= s.db.writes
    && (s.l.CreateMagic? ==> !s.db.magic)
  }

  /** Whoever learns of the lock learns of a lock held until a token is sent. */
  predicate LearnInv(s: State) {
    (s.ch.locked != [] && s.ch.locked[0]) || BeforeRelease(s.m) || !s.r.NotStarted? ==>
      PastLock(s.l) && (s.l.WaitToken? || s.sent > 0)
  }

  predicate LockInv(s: State) {
    HoldInv(s) && LearnInv(s)
  }

  /** While nothing was written since a challenge that was answered, the two tables agree. */
  predicate DataInv(s: State) {
    && (Challenged(s.m, s.r) ==> s.h.lockWrites <= s.h.challengeWrites <= s.db.writes)
    && (AfterEvents(s.m, s.r) ==> s.h.synced == Some(s.h.challengeWrites))
    && (s.h.synced.Some? ==> s.h.synced.value <= s.db.writes)
    && (s.m.WaitEvents? && s.h.synced.Some? ==> s.h.synced.value <= s.h.challengeWrites)
    && (s.h.synced == Some(s.db.writes) && s.h.swap.None? ==> s.db.shadow == s.db.original)
  }

  /** Who has sent which tokens. */
  predicate TokenInv(s: State) {
    var byRenamer := if s.renameFailed then 1 else 0;
    && (s.m.WaitLocked? || BeforeRelease(s.m) ==> s.sent == byRenamer)
    && (s.m.WaitUnlocked? || s.m.WaitRenamed? ==> s.sent == 1 + byRenamer)
    && (s.m.Returning? ==> byRenamer <= s.sent <= 1 + byRenamer)
    && (s.m.Returned? ==> 1 + byRenamer <= s.sent <= 2 + byRenamer)
    && s.tokens <= s.sent && (s.l.WaitToken? || !PastLock(s.l) ==> s.tokens == s.sent)
    && (s.m.WaitLocked? || s.m.WaitLockSession? || s.m.WriteChallenge? || s.m.WaitEvents? || s.m.StartRename? ==>
        s.r.NotStarted?)
    && (s.m.WaitRenameSession? || s.m.Poll? || s.m.CheckLock? || s.m.Release? ==> !s.r.NotStarted?)
    && (s.m.WaitUnlocked? || s.m.WaitRenamed? ==> !s.r.NotStarted?)
  }

  /** The current attempt's RENAME swapped the tables. */
  predicate OwnSwap(s: State) {
    s.h.swap.Some? && s.h.swap.value.attempt == |s.past.renamers|
  }

  predicate RenameInv(s: State) {
    && (s.r.Queued? && s.h.underLock ==> s.db.writes == s.h.lockWrites)
    && (OwnSwap(s) ==> (s.r == RenameDefers(false) || s.r == RenamerDone(true)) && !s.renameFailed)
    && (s.r == RenameDefers(false) ==> OwnSwap(s))
    && (s.renameFailed ==> s.r.RenamerDone?)
    && (OwnSwap(s) <==> s.ch.renamed != [] && s.ch.renamed[0])
    && (s.db.held ==> !OwnSwap(s))
    && (s.r.Queued? && BeforeRelease(s.m) ==> s.h.underLock || !s.db.alive)
    && (OwnSwap(s) && s.h.underLock ==> s.h.swap.value == Swap(s.h.lockWrites, true, |s.past.renamers|))
    && (s.h.swap.Some? ==> s.h.swap.value.attempt <= |s.past.renamers|)
  }

  /** The migrator went past the check of the lock. */
  predicate Passed(m: Migrator) {
    m.Release? || m.WaitUnlocked? || m.WaitRenamed? || m == Returning(true) || m == Returned(true)
  }

  predicate FoundInv(s: State) {
    && (s.m.CheckLock? || Passed(s.m) ==> s.h.found || s.renameFailed)
    && (s.h.found && BeforeRelease(s.m) ==> s.h.underLock || !s.db.alive)
    && (s.h.found ==> s.r.Queued? || s.r.RenameDefers? || s.r.RenameFailed? || s.r.RenamerDone?)
    && (s.h.found && Passed(s.m) ==> s.h.underLock)
    && (s.m == Returning(true) || s.m == Returned(true) ==> OwnSwap(s))
  }

  /** The locking session has sent at most two messages on each channel. */
  predicate LockCapacity(s: State) {
    && |s.ch.locked| <= (if !PastLock(s.l) then 0 else if s.l.CleanUp? || s.l == LockerDone(true) then 2 else 1)
    && |s.ch.lockSession| <= (if s.l.BeginLock? || s.l.LockSession? || s.l == LockerDone(false) then 0
                              else if s.l.CleanUp? || s.l == LockerDone(true) then 2 else 1)
    && |s.ch.unlocked| <= (if s.l.CleanUp? || s.l == LockerDone(true) then 2 else if s.l.Defers? then 1 else 0)
  }

  /** So has the renaming session. */
  predicate RenameCapacity(s: State) {
    && |s.ch.renameSession| <= RenameSessionSent(s.r)
    && |s.ch.renamed| <= (if s.r == RenameFailed(true) || s.r == RenamerDone(true) then 2
                          else if s.r.RenameDefers? then 1 else 0)
  }

  /** No channel ever holds more than its capacity, so no send blocks. */
  predicate CapacityInv(s: State) {
    LockCapacity(s) && RenameCapacity(s)
  }

  /** What the migrator waits for has been sent once the locking session is past sending it. */
  predicate LockDelivery(s: State) {
    && (PastLock(s.l) ==> s.ch.locked != [])
    && (s.l == LockerDone(false) ==> !s.ch.locked[0])
    && (s.l.SetUp? || s.l.DropLeftover? || s.l.CreateMagic? || s.l.Lock? ==> s.ch.lockSession != [])
    && (s.ch.locked != [] && s.ch.locked[0] ==> s.ch.lockSession != [])
    && (BeforeRelease(s.m) || s.m.WaitUnlocked? || s.m.WaitRenamed? ==> s.ch.locked != [] && s.ch.locked[0])
    && (s.l.CleanUp? || s.l == LockerDone(true) || s.m.WaitRenamed? ==> s.ch.unlocked != [])
  }

  /** And what it waits for from the renaming session. */
  predicate RenameDelivery(s: State) {
    && (s.r.SetTimeout? || s.r.Issue? || s.r.Queued? ==> s.ch.renameSession != [] && s.ch.renameSession[0])
    && (s.m.Poll? && Pending(s.r) ==> s.renameId)
    && (s.r == RenameFailed(true) || s.r == RenamerDone(true) ==> s.ch.renameSession != [] && s.ch.renamed != [])
    && (s.m.Poll? || s.m.CheckLock? || s.m.Release? || s.m.WaitUnlocked? || s.m.WaitRenamed? ==>
          s.ch.renameSession != [])
    && (s.r.RenamerDone? && !s.r.begun ==> s.renameFailed)
    && (s.r == RenamerDone(true) ==> s.renameFailed || OwnSwap(s))
  }

  predicate DeliveryInv(s: State) {
    LockDelivery(s) && RenameDelivery(s)
  }

  function RenameSessionSent(r: Renamer): nat {
    match r
    case SetTimeout => 1
    case Issue => 1
    case Queued => 1
    case RenameDefers(_) => 1
    case RenameFailed(begun) => if begun then 2 else 0
    case RenamerDone(begun) => if begun then 2 else 0
    case _ => 0
  }

  predicate Inv(s: State) {
    LockInv(s) && DataInv(s) && TokenInv(s) && RenameInv(s) && FoundInv(s) && CapacityInv(s) && DeliveryInv(s)
  }
}
