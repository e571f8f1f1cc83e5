/** When a cut-over succeeds beside the replay, which has to answer its challenge. */
module CutOverReplaySuccess {
  import opened Wrappers
  import C = CutOver
  import CP = CutOverProof
  import CS = CutOverSuccess
  import F = Flow
  import P = Protocol
  import PP = ProtocolProof
  import PT = ProtocolTheorems
  import RA = ReplayAlone
  import RP = ReplayProgress
  import opened CutOverReplay

  /** The challenge of the current attempt was answered, or still can be. */
  predicate Answerable(j: Joint) {
    if CS.Unchallenged(j.cut.m) then j.replay.stream.dispatching && !RA.Stuck(j.replay)
    else j.cut.m.WaitEvents? ==> j.id.Some? && !RP.Barred(j.replay, j.id.value)
  }

  /** The current attempt may still return without error. */
  predicate MaySucceed(j: Joint) {
    CS.MaySucceed(j.cut) && Answerable(j)
  }

  ghost predicate CanSucceed(j: Joint) {
    exists k :: Leads(j, k) && k.cut.m == C.Returned(true) && |k.cut.past.renamers| == |j.cut.past.renamers|
  }

  // ----- how it succeeds

  /** The attempt goes on beside the replay until its challenge, its sentinel or its end. */
  lemma Onward(start: C.State, j: Joint) returns (k: Joint)
    requires Linked(start, j) && MaySucceed(j)
    ensures Leads(j, k) && Linked(start, k) && MaySucceed(k) && CS.Paused(k.cut.m)
    ensures |k.cut.past.renamers| == |j.cut.past.renamers|
    ensures (CS.Unchallenged(k.cut.m) ==> CS.Unchallenged(j.cut.m)) && (k.cut.m.WaitEvents? ==> j.cut.m.WaitEvents?)
  {
    CP.LeadsNowhere(j.cut);
    var cut := CS.Onward(j.cut, j.cut);
    QuietLifts(j, cut);
    k := j.(cut := cut);
    LinkedThrough(start, j, k);
  }

  lemma LinkedThrough(start: C.State, j: Joint, k: Joint)
    requires Linked(start, j) && Leads(j, k)
    ensures Linked(start, k)
  {
    var steps :| IsRun(j, steps) && Final(j, steps) == k;
    LinkedRun(start, j, steps);
  }

  lemma FreshChallenge(challenges: map<nat, nat>, keys: set<nat>) returns (id: nat)
    requires keys <= challenges.Keys
    ensures forall k | k in keys :: k < id
    decreases |keys|
  {
    if keys == {} {
      id := 0;
    } else {
      var k :| k in keys;
      id := FreshChallenge(challenges, keys - {k});
      assert forall x | x in keys :: x == k || x in keys - {k};
      if id <= k {
        id := k + 1;
      }
    }
  }

  /** The attempt writes a challenge of its own. */
  lemma Challenges(start: C.State, j: Joint) returns (k: Joint)
    requires Linked(start, j) && MaySucceed(j) && j.cut.m.WriteChallenge?
    ensures Leads(j, k) && Linked(start, k) && MaySucceed(k) && k.cut.m.WaitEvents?
    ensures |k.cut.past.renamers| == |j.cut.past.renamers|
  {
    var challenges := j.replay.server.challenges;
    var id := FreshChallenge(challenges, challenges.Keys);
    assert id !in challenges;
    LeadsOne(j, Challenge(id));
    LinkKept(start, j, Challenge(id));
    k := Next(j, Challenge(id));
    assert RA.Stuck(k.replay) ==> RA.Stuck(j.replay);
  }

  lemma AnswerOf(replay: P.State, id: nat) returns (answered: P.State)
    requires RA.Sound(replay) && id in replay.server.challenges && !RP.Barred(replay, id)
    ensures RA.Replays(replay, answered) && id in answered.worker.ran
  {
    RA.ReplaysNowhere(replay);
    answered := replay;
    if id !in replay.worker.ran {
      answered := RP.Answers(replay, replay, id);
    }
  }

  /** The replay answers the challenge. */
  lemma IsAnswered(start: C.State, j: Joint) returns (k: Joint)
    requires Linked(start, j) && MaySucceed(j) && j.cut.m.WaitEvents?
    ensures Leads(j, k) && Linked(start, k) && k.id == j.id && k.id.Some? && k.id.value in k.replay.worker.ran
    ensures k.cut == j.cut.(db := j.cut.db.(shadow := k.replay.shadow))
  {
    var replay := AnswerOf(j.replay, j.id.value);
    ReplayLifts(j, replay);
    k := With(j, replay);
    LinkedThrough(start, j, k);
  }

  lemma HearingIsGoingOn(j: Joint)
    requires Enabled(j, Hear) && CS.MaySucceed(j.cut)
    ensures MaySucceed(Next(j, Hear)) && Next(j, Hear).cut.m.StartRename? && Next(j, Hear).cut.past == j.cut.past
  {
  }

  /** And the attempt hears it. */
  lemma Hears(start: C.State, j: Joint) returns (k: Joint)
    requires Linked(start, j) && MaySucceed(j) && j.cut.m.WaitEvents?
    ensures Leads(j, k) && Linked(start, k) && MaySucceed(k) && k.cut.m.StartRename?
    ensures |k.cut.past.renamers| == |j.cut.past.renamers|
  {
    var answered := IsAnswered(start, j);
    assert CS.MaySucceed(answered.cut);
    HearingIsGoingOn(answered);
    LeadsOne(answered, Hear);
    LinkKept(start, answered, Hear);
    k := Next(answered, Hear);
    LeadsThen(j, answered, k);
  }

  lemma SucceedsBefore(j: Joint, k: Joint)
    requires Leads(j, k) && CanSucceed(k) && |k.cut.past.renamers| == |j.cut.past.renamers|
    ensures CanSucceed(j)
  {
    var n :| Leads(k, n) && n.cut.m == C.Returned(true) && |n.cut.past.renamers| == |k.cut.past.renamers|;
    LeadsThen(j, k, n);
  }

  lemma SucceedsOnceHeard(start: C.State, j: Joint)
    requires Linked(start, j) && MaySucceed(j) && !CS.Unchallenged(j.cut.m) && !j.cut.m.WaitEvents?
    ensures CanSucceed(j)
  {
    var k := Onward(start, j);
  }

  lemma SucceedsOnceAsked(start: C.State, j: Joint)
    requires Linked(start, j) && MaySucceed(j) && j.cut.m.WaitEvents?
    ensures CanSucceed(j)
  {
    var k := Hears(start, j);
    SucceedsOnceHeard(start, k);
    SucceedsBefore(j, k);
  }

  lemma Succeeds(start: C.State, j: Joint)
    requires Linked(start, j) && MaySucceed(j)
    ensures CanSucceed(j)
  {
    if j.cut.m.WaitEvents? {
      SucceedsOnceAsked(start, j);
    } else if CS.Unchallenged(j.cut.m) {
      var k := Onward(start, j);
      if k.cut.m.WriteChallenge? {
        var asked := Challenges(start, k);
        SucceedsOnceAsked(start, asked);
        SucceedsBefore(k, asked);
        SucceedsBefore(j, k);
      }
    } else {
      SucceedsOnceHeard(start, j);
    }
  }

  // ----- what stands in its way

  /** What the cut-over machine alone cannot do, it cannot do beside the replay. */
  lemma NeverSucceeds(start: C.State, j: Joint, steps: seq<Step>, i: nat)
    requires Linked(start, j) && CS.Hopeless(j.cut, i) && IsRun(j, steps)
    ensures CS.Hopeless(Final(j, steps).cut, i)
  {
    CP.LeadsNowhere(j.cut);
    LinkedRun(j.cut, j, steps);
    var moves :| C.IsRun(j.cut, moves) && C.Final(j.cut, moves) == Final(j, steps).cut;
    CS.HopelessRun(j.cut, moves, i);
  }

  /** The attempt has to wait for an answer that will not come. */
  predicate Unanswered(j: Joint, i: nat) {
    i == |j.cut.past.renamers| && !Answerable(j)
  }

  /** No sentinel of a challenge that was not written is anywhere. */
  lemma NotYetUnderway(replay: P.State, id: nat)
    requires P.Inv(replay) && PT.Unharmed(replay) && id !in replay.server.challenges
    ensures !RP.Underway(replay, id)
  {
    var w, challenges := replay.worker, replay.server.challenges;
    if P.Batching.Write(id) in P.InWork(w) {
      var behind := if replay.stream.dispatching then replay.stream.channel else [];
      F.OrderedAppend(P.InWork(w), behind, w.floor, w.applied, challenges);
      RP.SentinelIsFunction(P.InWork(w), id);
      F.SentinelsBelowFloor(P.InWork(w), w.floor, w.applied, challenges, id);
    }
  }

  lemma UnansweredByChallenge(j: Joint, id: nat, i: nat)
    requires RA.Sound(j.replay) && Unanswered(j, i) && Enabled(j, Challenge(id))
    ensures Unanswered(Next(j, Challenge(id)), i)
  {
    NotYetUnderway(j.replay, id);
    if RA.Stuck(j.replay) {
      RP.StuckKept(j.replay, P.ByServer(P.WriteChallenge(id)));
    }
  }

  lemma UnansweredByReplay(j: Joint, step: P.Step, i: nat)
    requires Unanswered(j, i) && P.Enabled(j.replay, step) && PT.Careful(j.replay, step) &&
             step != P.ByProcess(P.Resume)
    ensures Unanswered(j.(replay := P.Next(j.replay, step)), i)
  {
    if !CS.Unchallenged(j.cut.m) {
      if j.id.Some? {
        RP.BarredKept(j.replay, step, j.id.value);
      }
    } else if RA.Stuck(j.replay) {
      RP.StuckKept(j.replay, step);
    } else {
      RP.DispatchKept(j.replay, step);
    }
  }

  lemma UnansweredByMigrator(j: Joint, o: C.Outcome, i: nat)
    requires Unanswered(j, i) && C.MigratorEnabled(j.cut, o) && C.Rowless(j.cut, C.ByMigrator(o))
    ensures var k := j.(cut := C.MigratorNext(j.cut, o)); Unanswered(k, i) || CS.Hopeless(k.cut, i)
  {
  }

  lemma UnansweredByCutOver(j: Joint, step: C.Step, i: nat)
    requires Unanswered(j, i) && C.Enabled(j.cut, step) && C.Rowless(j.cut, step)
    ensures var k := j.(cut := C.Next(j.cut, step)); Unanswered(k, i) || CS.Hopeless(k.cut, i)
  {
    CS.AttemptsKept(j.cut, step);
    match step
    case ByMigrator(o) => UnansweredByMigrator(j, o, i);
    case ByLocker(ok) => CP.LockerFrames(j.cut, ok);
    case ByRenamer(ok) => assert C.RenamerNext(j.cut, ok).m == j.cut.m;
    case _ =>
  }

  lemma UnansweredKept(start: C.State, j: Joint, step: Step, i: nat)
    requires Linked(start, j) && Unanswered(j, i) && Enabled(j, step)
    ensures Unanswered(Next(j, step), i) || CS.Hopeless(Next(j, step).cut, i)
  {
    match step
    case CutOver(x) => UnansweredByCutOver(j, x, i);
    case Challenge(id) => UnansweredByChallenge(j, id, i);
    case Hear =>
    case Commit(changes) => UnansweredByReplay(j, Written(changes), i);
    case Process(x) => UnansweredByReplay(j, x, i);
  }

  lemma {:induction false} UnansweredRun(start: C.State, j: Joint, steps: seq<Step>, i: nat)
    requires Linked(start, j) && Unanswered(j, i) && IsRun(j, steps)
    ensures Unanswered(Final(j, steps), i) || CS.Hopeless(Final(j, steps).cut, i)
    decreases |steps|
  {
    if steps != [] {
      var k := Next(j, steps[0]);
      LinkKept(start, j, steps[0]);
      UnansweredKept(start, j, steps[0], i);
      if CS.Hopeless(k.cut, i) {
        NeverSucceeds(start, k, steps[1..], i);
      } else {
        UnansweredRun(start, k, steps[1..], i);
      }
    }
  }

  lemma StaysOut(j: Joint, k: Joint)
    requires Linked(j.cut, j) && !MaySucceed(j) && Leads(j, k)
    ensures CS.Hopeless(k.cut, |j.cut.past.renamers|) || Unanswered(k, |j.cut.past.renamers|)
  {
    var steps :| IsRun(j, steps) && Final(j, steps) == k;
    if CS.MaySucceed(j.cut) {
      UnansweredRun(j.cut, j, steps, |j.cut.past.renamers|);
    } else {
      NeverSucceeds(j.cut, j, steps, |j.cut.past.renamers|);
    }
  }

  /**
   From every state of both machines, some continuation of the current attempt returns
   without error if and only if the cut-over's state allows it and the replay can still
   answer the attempt's challenge.
   */
  lemma SucceedsExactlyWhen(j: Joint)
    requires Reached(j)
    ensures CanSucceed(j) <==> MaySucceed(j)
  {
    LinkReached(j);
    var i := |j.cut.past.renamers|;
    if MaySucceed(j) {
      Succeeds(j.cut, j);
    } else {
      forall k | Leads(j, k) ensures CS.Hopeless(k.cut, i) || Unanswered(k, i) {
        StaysOut(j, k);
      }
    }
  }

  lemma BeginsLinked(replay: P.State, retries: nat, attempts: nat)
    requires Copied(replay)
    ensures Linked(Begin(replay, retries, attempts).cut, Begin(replay, retries, attempts))
  {
    var init :| PT.Reaches(P.Start(init), replay);
    PT.InvReached(init, replay);
    LinkedAtFirst(replay, retries, attempts);
  }

  /**
   So a cut-over can succeed that begins after a row copy that met no hazard, with the
   dispatcher running and the batch in hand fit to be committed; and its success then
   means that the ghost that was swapped in holds what the original holds.
   */
  lemma SuccessIsReachable(replay: P.State, retries: nat, attempts: nat) returns (j: Joint)
    requires Copied(replay) && replay.stream.dispatching && !RA.Stuck(replay)
    ensures Leads(Begin(replay, retries, attempts), j) && j.cut.m == C.Returned(true)
    ensures j.cut.h.swap.Some? && j.replay.shadow == P.Current(j.replay.server)
  {
    var first := Begin(replay, retries, attempts);
    BeginsLinked(replay, retries, attempts);
    Succeeds(first.cut, first);
    j :| Leads(first, j) && j.cut.m == C.Returned(true) && |j.cut.past.renamers| == 0;
    CutOverIsSafe(j);
  }

  /** Every table can be migrated: its rows copied, and the tables swapped with the same rows in both. */
  lemma MigrationCanComplete(init: Table, retries: nat, attempts: nat) returns (replay: P.State, j: Joint)
    ensures Copied(replay) && replay.server.init == init
    ensures Leads(Begin(replay, retries, attempts), j) && j.cut.m == C.Returned(true)
    ensures j.cut.h.swap.Some? && j.replay.shadow == P.Current(j.replay.server)
  {
    var start := P.Start(init);
    assert P.IsRun(start, []) && P.Final(start, []) == start;
    replay := RP.CatchesUp(init, start);
    var steps :|
      && P.IsRun(start, steps) && PT.CarefulRun(start, steps)
      && (forall i | 0 <= i < |steps| :: PT.Undisturbed(steps[i])) && P.Final(start, steps) == replay;
    assert PT.Reaches(start, replay);
    j := SuccessIsReachable(replay, retries, attempts);
  }
}
