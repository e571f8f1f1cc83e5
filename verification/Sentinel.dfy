/**
 The one-place channel that carries cut-over sentinels from the worker to the
 migrator, with its overwrite-oldest send.
 */
module Sentinel {
  import opened Wrappers

  /** Where the sending worker is: `First` try, `Drain` the stale value, `Second` try. */
  datatype Sender = Ready | First(id: nat) | Drain(id: nat) | Second(id: nat)

  /** The channel's buffer, and what was sent, received, and dropped by a second try. */
  datatype State = State(buffer: Option<nat>, sender: Sender, sent: seq<nat>, received: seq<nat>, dropped: set<nat>)

  /** The worker's steps, and the receiver's, which may come between any two of them. */
  datatype Step = Begin(id: nat) | Advance | Receive

  const START := State(None, Ready, [], [], {})

  predicate Enabled(s: State, step: Step) {
    match step
    case Begin(_) => s.sender.Ready?
    case Advance => !s.sender.Ready?
    case Receive => s.buffer.Some?
  }

  function Next(s: State, step: Step): State
    requires Enabled(s, step)
  {
    match step
    case Begin(id) => s.(sender := First(id))
    case Receive => s.(buffer := None, received := s.received + [s.buffer.value])
    case Advance =>
      match s.sender
      case First(id) =>
        if s.buffer.None? then s.(buffer := Some(id), sender := Ready, sent := s.sent + [id])
        else s.(sender := Drain(id))
      case Drain(id) => s.(buffer := None, sender := Second(id))
      case Second(id) =>
        if s.buffer.None? then s.(buffer := Some(id), sender := Ready, sent := s.sent + [id])
        else s.(sender := Ready, sent := s.sent + [id], dropped := s.dropped + {id})
  }

  predicate IsRun(s: State, steps: seq<Step>)
    decreases |steps|
  {
    steps == [] || (Enabled(s, steps[0]) && IsRun(Next(s, steps[0]), steps[1..]))
  }

  function Final(s: State, steps: seq<Step>): State
    requires IsRun(s, steps)
    decreases |steps|
  {
    if steps == [] then s else Final(Next(s, steps[0]), steps[1..])
  }

  /** `a` arises from `b` by leaving some elements out. */
  predicate Subsequence(a: seq<nat>, b: seq<nat>) {
    if a == [] then true
    else if b == [] then false
    else if a[|a| - 1] == b[|b| - 1] && Subsequence(a[..|a| - 1], b[..|b| - 1]) then true
    else Subsequence(a, b[..|b| - 1])
  }

  function Got(s: State): seq<nat> {
    s.received + if s.buffer.Some? then [s.buffer.value] else []
  }

  predicate Inv(s: State) {
    && (s.sender.Second? ==> s.buffer.None?)
    && s.dropped == {}
    && Subsequence(Got(s), s.sent)
    && (s.sender.Ready? || s.sender.First? ==>
          s.sent != [] ==> Got(s) != [] && Got(s)[|Got(s)| - 1] == s.sent[|s.sent| - 1])
  }

  lemma {:induction false} SubsequenceDrop(a: seq<nat>, x: nat, b: seq<nat>)
    requires Subsequence(a + [x], b)
    ensures Subsequence(a, b)
    decreases |b|
  {
    if a != [] {
      assert (a + [x])[..|a|] == a;
      if !((a + [x])[|a|] == b[|b| - 1] && Subsequence((a + [x])[..|a|], b[..|b| - 1])) {
        SubsequenceDrop(a, x, b[..|b| - 1]);
      }
    }
  }

  lemma SubsequenceBoth(a: seq<nat>, b: seq<nat>, x: nat)
    requires Subsequence(a, b)
    ensures Subsequence(a + [x], b + [x])
  {
    assert (a + [x])[..|a|] == a && (b + [x])[..|b|] == b;
  }

  lemma InvKept(s: State, step: Step)
    requires Inv(s) && Enabled(s, step)
    ensures Inv(Next(s, step))
  {
    var s' := Next(s, step);
    match step
    case Begin(_) =>
    case Receive =>
      assert Got(s') == Got(s);
    case Advance =>
      match s.sender
      case First(id) =>
        if s.buffer.None? {
          assert Got(s) == s.received;
          SubsequenceBoth(s.received, s.sent, id);
        }
      case Drain(_) =>
        if s.buffer.Some? {
          SubsequenceDrop(s.received, s.buffer.value, s.sent);
        }
        assert Got(s') == s.received;
      case Second(id) =>
        assert Got(s) == s.received;
        SubsequenceBoth(s.received, s.sent, id);
  }

  lemma {:induction false} InvRun(s: State, steps: seq<Step>)
    requires Inv(s) && IsRun(s, steps)
    ensures Inv(Final(s, steps))
    decreases |steps|
  {
    if steps != [] {
      InvKept(s, steps[0]);
      InvRun(Next(s, steps[0]), steps[1..]);
    }
  }

  /**
   With one sender and a receiver that may take the value at any moment, no send
   is dropped: in every reachable state where no send is under way, the newest
   sentinel is in the channel or was the last one received.
   */
  lemma NewestIsDelivered(steps: seq<Step>)
    requires IsRun(START, steps)
    ensures var s := Final(START, steps);
            && s.dropped == {} && Subsequence(Got(s), s.sent)
            && (s.sender.Ready? && s.sent != [] ==>
                  var newest := s.sent[|s.sent| - 1];
                  if s.buffer.Some? then s.buffer.value == newest
                  else s.received != [] && s.received[|s.received| - 1] == newest)
  {
    InvRun(START, steps);
  }

  // ----- nothing that is to be sent is forgotten

  /** The sentinels whose sending was begun, in order. */
  function Begun(steps: seq<Step>): seq<nat> {
    if steps == [] then []
    else
      var n := |steps| - 1;
      Begun(steps[..n]) + if steps[n].Begin? then [steps[n].id] else []
  }

  /** What is being sent. */
  function Sending(sender: Sender): seq<nat> {
    match sender
    case Ready => []
    case First(id) => [id]
    case Drain(id) => [id]
    case Second(id) => [id]
  }

  lemma {:induction false} RunSplit(s: State, steps: seq<Step>)
    requires IsRun(s, steps) && steps != []
    ensures var n := |steps| - 1;
            && IsRun(s, steps[..n]) && Enabled(Final(s, steps[..n]), steps[n])
            && Final(s, steps) == Next(Final(s, steps[..n]), steps[n])
    decreases |steps|
  {
    if |steps| > 1 {
      RunSplit(Next(s, steps[0]), steps[1..]);
      var n := |steps| - 1;
      assert steps[1..][..n - 1] == steps[..n][1..] && steps[..n][0] == steps[0];
    }
  }

  /** In every run, what was sent and what is being sent is all that was begun, in order. */
  lemma {:induction false} AllBegunIsSent(steps: seq<Step>)
    requires IsRun(START, steps)
    ensures var s := Final(START, steps); s.sent + Sending(s.sender) == Begun(steps)
    decreases |steps|
  {
    if steps != [] {
      RunSplit(START, steps);
      AllBegunIsSent(steps[..|steps| - 1]);
    }
  }

  lemma RunOne(s: State, step: Step, rest: seq<Step>)
    requires Enabled(s, step) && IsRun(Next(s, step), rest)
    ensures IsRun(s, [step] + rest) && Final(s, [step] + rest) == Final(Next(s, step), rest)
  {
    assert ([step] + rest)[1..] == rest;
  }

  /** A sentinel that is sent while nobody receives takes the place of a stale one. */
  lemma SendReplaces(s: State, id: nat) returns (advances: seq<Step>)
    requires s.sender.Ready?
    ensures IsRun(s, [Begin(id)] + advances) && forall i | 0 <= i < |advances| :: advances[i] == Advance
    ensures Final(s, [Begin(id)] + advances) == s.(buffer := Some(id), sent := s.sent + [id])
  {
    var begun := Next(s, Begin(id));
    var first := Next(begun, Advance);
    advances := [];
    if s.buffer.Some? {
      var drained := Next(first, Advance);
      RunOne(drained, Advance, []);
      RunOne(first, Advance, [Advance] + []);
      advances := [Advance] + ([Advance] + []);
    }
    RunOne(begun, Advance, advances);
    advances := [Advance] + advances;
    RunOne(s, Begin(id), advances);
  }

  // ----- waiting for a sentinel

  /** What the waiting migrator meets next: a sentinel, or its timeout. */
  datatype Signal = Processed(challenge: nat) | Timeout

  /** The first signal that is not a stale sentinel. */
  function Decisive(signals: seq<Signal>, challenge: nat): Option<Signal> {
    if signals == [] then None
    else if signals[0].Timeout? || signals[0].challenge == challenge then Some(signals[0])
    else Decisive(signals[1..], challenge)
  }

  class Migrator {
    var lastLockProcessed: Option<nat>

    constructor ()
      ensures lastLockProcessed == None
    {
      lastLockProcessed := None;
    }

    /** Returns success on the attempt's own challenge only; stale ones are skipped. */
    method WaitForEventsUpToLock(challenge: nat, signals: seq<Signal>) returns (ok: bool, taken: nat)
      requires Decisive(signals, challenge).Some?
      modifies this
      ensures ok <==> Decisive(signals, challenge) == Some(Processed(challenge))
      ensures 0 < taken <= |signals| && signals[taken - 1] == (if ok then Processed(challenge) else Timeout)
      ensures forall i | 0 <= i < taken - 1 :: signals[i].Processed? && signals[i].challenge != challenge
      ensures lastLockProcessed == if ok then Some(challenge) else old(lastLockProcessed)
    {
      taken := 0;
      var found := false;
      while !found
        invariant taken <= |signals| &&
                  Decisive(signals, challenge) ==
                  (if found then Some(Processed(challenge)) else Decisive(signals[taken..], challenge))
        invariant found ==> taken > 0 && signals[taken - 1] == Processed(challenge)
        invariant found ==> lastLockProcessed == Some(challenge)
        invariant !found ==> lastLockProcessed == old(lastLockProcessed)
        invariant forall i | 0 <= i < (if found then taken - 1 else taken) ::
                    signals[i].Processed? && signals[i].challenge != challenge
        decreases |signals| - taken, !found
      {
        var signal := signals[taken];
        assert signals[taken..][0] == signal && signals[taken..][1..] == signals[taken + 1..];
        taken := taken + 1;
        if signal.Timeout? {
          return false, taken;
        }
        if signal.challenge == challenge {
          found := true;
          lastLockProcessed := Some(signal.challenge);
        }
      }
      return true, taken;
    }
  }
}
