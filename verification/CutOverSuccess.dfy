/**
 When a cut-over succeeds: from which states some continuation of the current attempt
 returns without error, and what its return says.
 */
module CutOverSuccess {
  import opened Wrappers
  import opened CutOver
  import opened CutOverProof

  // ----- what the migrator returns

  /** Once the renaming session has answered, the migrator returns without error if and only if its RENAME swapped. */
  lemma ReturnsWhetherSwapped(s: State, o: Outcome)
    requires Reachable(s) && s.m.WaitRenamed? && MigratorEnabled(s, o)
    ensures MigratorNext(s, o).m == Returning(OwnSwap(s))
  {
    InvReached(s);
  }

  // ----- how long it waits for the RENAME to show

  /**
   The migrator goes on from waiting exactly if the RENAME was found or is known to have
   failed, and gives up exactly if it is cancelled or has missed the RENAME for the last time.
   */
  lemma LeavesPollExactlyWhen(s: State, o: Outcome)
    requires s.m.Poll? && MigratorEnabled(s, o)
    ensures var m := MigratorNext(s, o).m;
            && (m.CheckLock? <==> !o.GiveUp? && (s.renameFailed || o.Good?))
            && (m == Returning(false) <==> o.GiveUp? || (o.Bad? && !s.renameFailed && s.m.left <= 1))
            && (m.Poll? <==> o.Bad? && !s.renameFailed && s.m.left > 1)
  {
  }

  /** How often the migrator moves. */
  function MigratorMoves(steps: seq<Step>): nat {
    if steps == [] then 0 else (if steps[0].ByMigrator? then 1 else 0) + MigratorMoves(steps[1..])
  }

  /** The attempt goes on, and the migrator never finds the RENAME. */
  predicate Missing(step: Step) {
    !step.Again? && (step.ByMigrator? ==> step.outcome == Bad)
  }

  lemma FailureKept(s: State, step: Step)
    requires Enabled(s, step) && !step.Again? && s.renameFailed
    ensures Next(s, step).renameFailed
  {
    match step
    case ByLocker(ok) => LockerFrames(s, ok);
    case _ =>
  }

  lemma {:induction false} FailureStays(s: State, steps: seq<Step>)
    requires IsRun(s, steps) && s.renameFailed && forall i | 0 <= i < |steps| :: Missing(steps[i])
    ensures Final(s, steps).renameFailed
    decreases |steps|
  {
    if steps != [] {
      FailureKept(s, steps[0]);
      assert forall i | 0 <= i < |steps[1..]| :: steps[1..][i] == steps[i + 1];
      FailureStays(Next(s, steps[0]), steps[1..]);
    }
  }

  lemma OneMiss(s: State, step: Step)
    requires s.m.Poll? && !s.renameFailed && Enabled(s, step) && Missing(step)
    ensures var m := Next(s, step).m;
            m == if !step.ByMigrator? then s.m else if s.m.left > 1 then Poll(s.m.left - 1) else Returning(false)
  {
    match step
    case ByLocker(ok) => LockerFrames(s, ok);
    case ByRenamer(ok) => assert RenamerNext(s, ok).m == s.m;
    case _ =>
  }

  /**
   Whatever the sessions do meanwhile, a migrator that never finds the RENAME, nor learns
   that it failed, looks for it just as often as it may.
   */
  lemma {:induction false} PollsToTheEnd(s: State, steps: seq<Step>)
    requires s.m.Poll? && IsRun(s, steps) && (forall i | 0 <= i < |steps| :: Missing(steps[i]))
    requires !Final(s, steps).renameFailed && MigratorMoves(steps) <= s.m.left
    ensures var k := MigratorMoves(steps);
            Final(s, steps).m == if k == 0 then s.m else if k < s.m.left then Poll(s.m.left - k) else Returning(false)
    decreases |steps|
  {
    if steps != [] {
      if s.renameFailed {
        FailureStays(s, steps);
      }
      OneMiss(s, steps[0]);
      assert forall i | 0 <= i < |steps[1..]| :: steps[1..][i] == steps[i + 1];
      if Next(s, steps[0]).m.Poll? {
        PollsToTheEnd(Next(s, steps[0]), steps[1..]);
      } else {
        StaysReturning(Next(s, steps[0]), steps[1..]);
      }
    }
  }

  lemma {:induction false} StaysReturning(s: State, steps: seq<Step>)
    requires s.m.Returning? && IsRun(s, steps) && MigratorMoves(steps) == 0
    requires forall i | 0 <= i < |steps| :: Missing(steps[i])
    ensures Final(s, steps).m == s.m
    decreases |steps|
  {
    if steps != [] {
      match steps[0] {
        case ByLocker(ok) => LockerFrames(s, ok);
        case ByRenamer(ok) => assert RenamerNext(s, ok).m == s.m;
        case _ =>
      }
      assert forall i | 0 <= i < |steps[1..]| :: steps[1..][i] == steps[i + 1];
      StaysReturning(Next(s, steps[0]), steps[1..]);
    }
  }

  // ----- whether it can still succeed

  /** The RENAME has swapped the tables, or is queued with the magic table gone or going. */
  predicate Grantable(s: State) {
    OwnSwap(s) ||
    (s.h.swap.None? && s.r.Queued? && (s.db.magic ==> !s.l.LockerDone? || s.past.lockers > 0))
  }

  /** Nothing is swapped, the tables are locked, and the RENAME is still to come. */
  predicate InHand(s: State) {
    s.h.swap.None? && s.db.held && Pending(s.r)
  }

  /**
   The current attempt may still return without error: nothing has failed so far, the
   locking session lives until it has unlocked, and no earlier RENAME has swapped.
   */
  predicate MaySucceed(s: State) {
    match s.m
    case WaitLocked =>
      s.h.swap.None? && s.db.alive && (if s.ch.locked == [] then s.l.Lock? ==> s.db.magic else s.ch.locked[0])
    case WaitRenameSession => InHand(s)
    case Poll(_) => InHand(s)
    case CheckLock => InHand(s) && s.r.Queued?
    case Release => InHand(s) && s.r.Queued?
    case WaitUnlocked =>
      if s.ch.unlocked == [] then InHand(s) && s.r.Queued? else s.ch.unlocked[0] && Grantable(s)
    case WaitRenamed => Grantable(s)
    case Returning(ok) => ok
    case Returned(ok) => ok
    case _ => s.h.swap.None? && s.db.held
  }

  /** Attempt `i` is over, or its success is out of reach. */
  predicate Hopeless(s: State, i: nat) {
    i < |s.past.renamers| || (i == |s.past.renamers| && !MaySucceed(s))
  }

  lemma HopelessByMigrator(s: State, o: Outcome)
    requires Inv(s) && !MaySucceed(s) && MigratorEnabled(s, o)
    ensures !MaySucceed(MigratorNext(s, o))
  {
  }

  lemma HopelessByLocker(s: State, ok: bool)
    requires Inv(s) && !MaySucceed(s) && LockerEnabled(s, ok)
    ensures !MaySucceed(LockerNext(s, ok))
  {
  }

  lemma HopelessByRenamer(s: State, ok: bool)
    requires Inv(s) && !MaySucceed(s) && RenamerEnabled(s, ok)
    ensures !MaySucceed(RenamerNext(s, ok))
  {
  }

  lemma HopelessByPast(s: State, step: PastStep)
    requires Inv(s) && !MaySucceed(s) && PastEnabled(s, step)
    ensures !MaySucceed(PastNext(s, step))
  {
  }

  lemma HopelessByOthers(s: State, step: Step)
    requires Inv(s) && !MaySucceed(s) && Enabled(s, step) && (step.Write? || step.Replay? || step.LockerDies?)
    ensures !MaySucceed(Next(s, step))
  {
  }

  /** Attempts are only ever added. */
  lemma AttemptsKept(s: State, step: Step)
    requires Enabled(s, step)
    ensures |Next(s, step).past.renamers| == |s.past.renamers| + if step.Again? then 1 else 0
  {
    match step
    case ByMigrator(o) => assert MigratorNext(s, o).past == s.past;
    case ByLocker(ok) => LockerFrames(s, ok);
    case ByRenamer(ok) => assert RenamerNext(s, ok).past == s.past;
    case _ =>
  }

  lemma HopelessKept(s: State, step: Step, i: nat)
    requires Inv(s) && Hopeless(s, i) && Enabled(s, step)
    ensures Hopeless(Next(s, step), i)
  {
    AttemptsKept(s, step);
    if i == |s.past.renamers| {
      match step
      case ByMigrator(o) => HopelessByMigrator(s, o);
      case ByLocker(ok) => HopelessByLocker(s, ok);
      case ByRenamer(ok) => HopelessByRenamer(s, ok);
      case ByPast(x) => HopelessByPast(s, x);
      case Again =>
      case _ => HopelessByOthers(s, step);
    }
  }

  lemma {:induction false} HopelessRun(s: State, steps: seq<Step>, i: nat)
    requires Inv(s) && Hopeless(s, i) && IsRun(s, steps)
    ensures Hopeless(Final(s, steps), i)
    decreases |steps|
  {
    if steps != [] {
      InvKept(s, steps[0]);
      HopelessKept(s, steps[0], i);
      HopelessRun(Next(s, steps[0]), steps[1..], i);
    }
  }

  // ----- how it succeeds

  /** The sessions of earlier attempts hold no lock and have no RENAME queued. */
  predicate StoodBack(p: Past) {
    !p.holds && forall i | 0 <= i < |p.renamers| :: !p.renamers[i].Queued?
  }

  /** They let go of the lock, and their RENAMEs give up waiting. */
  lemma StandBack(s0: State, s: State, n: nat) returns (s': State)
    requires QuietlyLeads(s0, s) && Inv(s)
    requires n <= |s.past.renamers| && forall k | 0 <= k < n :: !s.past.renamers[k].Queued?
    ensures QuietlyLeads(s0, s') && Inv(s') && StoodBack(s'.past) && s' == s.(past := s'.past)
    ensures s'.past.lockers == s.past.lockers && |s'.past.renamers| == |s.past.renamers|
    decreases s.past.holds, |s.past.renamers| - n
  {
    if s.past.holds {
      s' := QuietOn(s0, s, ByPast(Unlocks));
      s' := StandBack(s0, s', n);
    } else if n == |s.past.renamers| {
      s' := s;
    } else {
      s' := s;
      if s.past.renamers[n].Queued? {
        s' := QuietOn(s0, s, ByPast(Renames(n, false)));
      }
      s' := StandBack(s0, s', n + 1);
    }
  }

  /** Only a challenge, its sentinel, or nothing more is to come. */
  predicate Paused(m: Migrator) {
    m.WriteChallenge? || m.WaitEvents? || m.Returned?
  }

  /** The next step to success, with earlier attempts out of the way. */
  function Aim(s: State): Step {
    match s.m
    case WaitLocked => if s.ch.locked == [] then ByLocker(true) else ByMigrator(Bad)
    case StartRename => ByMigrator(Good(map[]))
    case WaitRenameSession => if s.ch.renameSession == [] then ByRenamer(true) else ByMigrator(Bad)
    case Poll(_) => if s.r.Queued? then ByMigrator(Good(map[])) else ByRenamer(true)
    case CheckLock => ByMigrator(Good(map[]))
    case WaitUnlocked => if s.ch.unlocked == [] then ByLocker(true) else ByMigrator(Bad)
    case WaitRenamed =>
      if s.ch.renamed != [] then ByMigrator(Bad)
      else if s.db.magic then if s.l.LockerDone? then ByPast(CleansUp(true)) else ByLocker(true)
      else ByRenamer(true)
    case _ => ByMigrator(Bad)
  }

  /** The challenge is still to be written. */
  predicate Unchallenged(m: Migrator) {
    m.WaitLocked? || m.WaitLockSession? || m.WriteChallenge?
  }

  /** The attempt goes on in `t`, with the same rows. */
  predicate GoesOn(s: State, t: State) {
    && MaySucceed(t) && |t.past.renamers| == |s.past.renamers|
    && t.db.original == s.db.original && t.db.shadow == s.db.shadow && t.db.writes == s.db.writes
    && (Unchallenged(t.m) ==> Unchallenged(s.m)) && (t.m.WaitEvents? ==> s.m.WaitEvents?)
  }

  predicate Forward(s: State, t: State) {
    || AttemptRank(t) < AttemptRank(s)
    || (AttemptRank(t) == AttemptRank(s) && LockerRank(t.l) < LockerRank(s.l))
    || (AttemptRank(t) == AttemptRank(s) && t.l == s.l && t.past.lockers < s.past.lockers)
  }

  lemma AimOfMigrator(s: State)
    requires Inv(s) && MaySucceed(s) && !Paused(s.m) && Aim(s).ByMigrator?
    ensures MigratorEnabled(s, Aim(s).outcome) && Rowless(s, Aim(s))
    ensures GoesOn(s, MigratorNext(s, Aim(s).outcome)) && Forward(s, MigratorNext(s, Aim(s).outcome))
  {
    MigratorRankFalls(s, Aim(s).outcome);
  }

  lemma AimOfLocker(s: State)
    requires Inv(s) && MaySucceed(s) && StoodBack(s.past) && Aim(s).ByLocker?
    ensures LockerEnabled(s, true) && GoesOn(s, LockerNext(s, true)) && Forward(s, LockerNext(s, true))
  {
    assert !AnyQueued(s) || !s.l.Lock?;
    LockerRankStays(s, true);
  }

  lemma AimOfRenamer(s: State)
    requires Inv(s) && MaySucceed(s) && StoodBack(s.past) && Aim(s).ByRenamer?
    ensures RenamerEnabled(s, true) && GoesOn(s, RenamerNext(s, true)) && Forward(s, RenamerNext(s, true))
  {
    RenamerRankFalls(s, true);
  }

  lemma AimOfPast(s: State)
    requires Inv(s) && MaySucceed(s) && StoodBack(s.past) && Aim(s).ByPast?
    ensures PastEnabled(s, Aim(s).past) && GoesOn(s, PastNext(s, Aim(s).past)) && Forward(s, PastNext(s, Aim(s).past))
  {
  }

  lemma AimIsForward(s: State)
    requires Inv(s) && MaySucceed(s) && StoodBack(s.past) && !Paused(s.m)
    ensures Enabled(s, Aim(s)) && Rowless(s, Aim(s)) && GoesOn(s, Next(s, Aim(s))) && Forward(s, Next(s, Aim(s)))
  {
    match Aim(s)
    case ByMigrator(_) => AimOfMigrator(s);
    case ByLocker(_) => AimOfLocker(s);
    case ByRenamer(_) => AimOfRenamer(s);
    case ByPast(_) => AimOfPast(s);
    case _ =>
  }

  lemma StandingBackIsHarmless(s: State, t: State)
    requires t == s.(past := t.past) && t.past.lockers == s.past.lockers && |t.past.renamers| == |s.past.renamers|
    requires MaySucceed(s)
    ensures GoesOn(s, t) && AttemptRank(t) == AttemptRank(s) && t.l == s.l && t.m == s.m
  {
  }

  /** The next step, after the sessions of earlier attempts have stood back. */
  lemma OneOnward(s0: State, s: State) returns (s': State)
    requires QuietlyLeads(s0, s) && Inv(s) && MaySucceed(s) && !Paused(s.m)
    ensures QuietlyLeads(s0, s') && Inv(s') && GoesOn(s, s') && Forward(s, s')
  {
    var back := StandBack(s0, s, 0);
    StandingBackIsHarmless(s, back);
    AimIsForward(back);
    s' := QuietOn(s0, back, Aim(back));
  }

  /** Without touching rows the attempt goes on to its challenge, to its sentinel or to its end. */
  lemma Onward(s0: State, s: State) returns (s': State)
    requires QuietlyLeads(s0, s) && Inv(s) && MaySucceed(s)
    ensures QuietlyLeads(s0, s') && Inv(s') && GoesOn(s, s') && Paused(s'.m)
    ensures s.m.WaitEvents? ==> s' == s
    decreases AttemptRank(s), LockerRank(s.l), s.past.lockers
  {
    if Paused(s.m) {
      s' := s;
    } else {
      s' := OneOnward(s0, s);
      s' := Onward(s0, s');
    }
  }

  // ----- exactly when

  /** Some continuation of `s` returns without error from the current attempt. */
  ghost predicate CanSucceed(s: State) {
    exists t :: Leads(s, t) && t.m == Returned(true) && |t.past.renamers| == |s.past.renamers|
  }

  /** The challenge is written, and answered with the ghost level. */
  lemma Answered(s0: State, s: State) returns (s': State)
    requires Leads(s0, s) && Inv(s) && MaySucceed(s) && (s.m.WriteChallenge? || s.m.WaitEvents?)
    ensures Leads(s0, s') && Inv(s') && MaySucceed(s') && s'.m.StartRename?
    ensures |s'.past.renamers| == |s.past.renamers|
  {
    s' := s;
    if s.m.WriteChallenge? {
      s' := LeadOn(s0, s', ByMigrator(Good(map[])));
    }
    s' := LeadOn(s0, s', ByMigrator(Good(s.db.original)));
  }

  lemma {:induction false} RunThen(s: State, steps: seq<Step>, more: seq<Step>)
    requires IsRun(s, steps) && IsRun(Final(s, steps), more)
    ensures IsRun(s, steps + more) && Final(s, steps + more) == Final(Final(s, steps), more)
    decreases |steps|
  {
    if steps == [] {
      assert steps + more == more;
    } else {
      assert (steps + more)[0] == steps[0] && (steps + more)[1..] == steps[1..] + more;
      RunThen(Next(s, steps[0]), steps[1..], more);
    }
  }

  lemma LeadsThen(s: State, t: State, u: State)
    requires Leads(s, t) && Leads(t, u)
    ensures Leads(s, u)
  {
    var steps :| IsRun(s, steps) && Final(s, steps) == t;
    var more :| IsRun(t, more) && Final(t, more) == u;
    RunThen(s, steps, more);
  }

  lemma Succeeds(s: State)
    requires Inv(s) && MaySucceed(s)
    ensures CanSucceed(s)
  {
    LeadsNowhere(s);
    var t := Onward(s, s);
    QuietIsRun(s, t);
    if !t.m.Returned? {
      t := Answered(s, t);
      LeadsNowhere(t);
      var u := Onward(t, t);
      QuietIsRun(t, u);
      LeadsThen(s, t, u);
    }
  }

  /**
   From every reachable state some continuation of the current attempt returns without
   error if and only if the state says that it may.
   */
  lemma SucceedsExactlyWhen(s: State)
    requires Reachable(s)
    ensures CanSucceed(s) <==> MaySucceed(s)
  {
    InvReached(s);
    if MaySucceed(s) {
      Succeeds(s);
    } else {
      forall t | Leads(s, t) ensures !(t.m == Returned(true) && |t.past.renamers| == |s.past.renamers|) {
        var steps :| IsRun(s, steps) && Final(s, steps) == t;
        HopelessRun(s, steps, |s.past.renamers|);
      }
    }
  }

  /** So a cut-over that begins can succeed, whatever the tables hold. */
  lemma SuccessIsReachable(original: Table, shadow: Table, retries: nat, attempts: nat) returns (s: State)
    ensures Leads(Start(original, shadow, retries, attempts), s) && s.m == Returned(true) && s.past.renamers == []
  {
    var start := Start(original, shadow, retries, attempts);
    InvAtStart(original, shadow, retries, attempts);
    Succeeds(start);
    s :| Leads(start, s) && s.m == Returned(true) && |s.past.renamers| == 0;
  }
}
