/**
 The events streamer: listeners, their notification, and the reconnect loop.
 */
module Streamer {
  import opened Wrappers

  datatype Listener = Listener(async: bool, database: string, table: string)

  datatype Entry = Row(database: string, table: string, id: nat) | Complete(coord: nat)

  /** An entry handed to a table listener, or to a transaction listener. */
  datatype Delivery = ToTable(listener: nat, entry: Entry) | ToTransaction(listener: nat, entry: Entry)

  // ----- who gets what

  function Lower(s: string): string {
    if s == [] then []
    else
      var c := s[|s| - 1];
      Lower(s[..|s| - 1]) + [if 'A' <= c <= 'Z' then c - 'A' + 'a' else c]
  }

  /** The same character, or the same ASCII letter in the other case. */
  predicate SameLetter(c: char, d: char) {
    || c == d
    || ('A' <= c <= 'Z' && 'a' <= d <= 'z' && d as int - 'a' as int == c as int - 'A' as int)
    || ('a' <= c <= 'z' && 'A' <= d <= 'Z' && c as int - 'a' as int == d as int - 'A' as int)
  }

  predicate SameName(a: string, b: string) {
    |a| == |b| && forall i | 0 <= i < |a| :: SameLetter(a[i], b[i])
  }

  lemma {:induction false} LowerAt(s: string)
    ensures |Lower(s)| == |s|
    ensures forall i | 0 <= i < |s| :: Lower(s)[i] == if 'A' <= s[i] <= 'Z' then s[i] - 'A' + 'a' else s[i]
  {
    if s != [] {
      LowerAt(s[..|s| - 1]);
    }
  }

  lemma FoldIsSameName(a: string, b: string)
    ensures Lower(a) == Lower(b) <==> SameName(a, b)
  {
    LowerAt(a);
    LowerAt(b);
    if Lower(a) == Lower(b) {
      assert |a| == |b|;
      forall i | 0 <= i < |a| ensures SameLetter(a[i], b[i]) {
        assert Lower(a)[i] == Lower(b)[i];
      }
    } else if |a| == |b| {
      var i :| 0 <= i < |a| && Lower(a)[i] != Lower(b)[i];
      assert !SameLetter(a[i], b[i]);
    }
  }

  /** Names that differ at most in the case of letters. */
  predicate EqualFold(a: string, b: string): (same: bool)
    ensures same <==> SameName(a, b)
  {
    FoldIsSameName(a, b);
    Lower(a) == Lower(b)
  }

  /** The listener is one for this table. */
  predicate ListensTo(l: Listener, database: string, table: string) {
    SameName(l.database, database) && SameName(l.table, table)
  }

  /** The deliveries of a row to the first `n` table listeners. */
  function RowDeliveries(listeners: seq<Listener>, e: Entry, n: nat): seq<Delivery>
    requires e.Row? && n <= |listeners|
  {
    if n == 0 then []
    else if ListensTo(listeners[n - 1], e.database, e.table) then
      RowDeliveries(listeners, e, n - 1) + [ToTable(n - 1, e)]
    else RowDeliveries(listeners, e, n - 1)
  }

  /** A marker goes to the first `n` transaction listeners. */
  function MarkerDeliveries(e: Entry, n: nat): seq<Delivery> {
    if n == 0 then [] else MarkerDeliveries(e, n - 1) + [ToTransaction(n - 1, e)]
  }

  function Deliveries(listeners: seq<Listener>, transactionListeners: nat, e: Entry): seq<Delivery> {
    if e.Complete? then MarkerDeliveries(e, transactionListeners) else RowDeliveries(listeners, e, |listeners|)
  }

  function AllDeliveries(listeners: seq<Listener>, transactionListeners: nat, entries: seq<Entry>): seq<Delivery> {
    if entries == [] then []
    else
      var n := |entries| - 1;
      AllDeliveries(listeners, transactionListeners, entries[..n]) +
      Deliveries(listeners, transactionListeners, entries[n])
  }

  lemma AllDeliveriesOne(listeners: seq<Listener>, transactionListeners: nat, entries: seq<Entry>, n: nat,
                         before: seq<Delivery>)
    requires n < |entries|
    ensures before + AllDeliveries(listeners, transactionListeners, entries[..n + 1]) ==
            (before + AllDeliveries(listeners, transactionListeners, entries[..n])) +
            Deliveries(listeners, transactionListeners, entries[n])
  {
    assert entries[..n + 1][..n] == entries[..n];
  }

  ghost predicate Wanted(listeners: seq<Listener>, database: string, table: string) {
    exists i :: 0 <= i < |listeners| && ListensTo(listeners[i], database, table)
  }

  lemma {:induction false} WantedIsDelivered(listeners: seq<Listener>, e: Entry, n: nat)
    requires e.Row? && n <= |listeners|
    ensures RowDeliveries(listeners, e, n) != [] <==>
            exists i :: 0 <= i < n && ListensTo(listeners[i], e.database, e.table)
  {
    if n > 0 {
      WantedIsDelivered(listeners, e, n - 1);
    }
  }

  /**
   An entry goes, in order and once to each, to just the listeners of its table, a
   marker to all transaction listeners.
   */
  predicate IsDelivery(deliveries: seq<Delivery>, listeners: seq<Listener>, transactionListeners: nat, e: Entry) {
    if e.Complete? then
      |deliveries| == transactionListeners &&
      forall i | 0 <= i < |deliveries| :: deliveries[i] == ToTransaction(i, e)
    else
      && (forall j, k | 0 <= j < k < |deliveries| :: deliveries[j].listener < deliveries[k].listener)
      && (forall j | 0 <= j < |deliveries| ::
            deliveries[j].ToTable? && deliveries[j].entry == e && deliveries[j].listener < |listeners|)
      && (forall i | 0 <= i < |listeners| :: ToTable(i, e) in deliveries <==>
                                             ListensTo(listeners[i], e.database, e.table))
  }

  lemma {:induction false} RowDeliveriesAre(listeners: seq<Listener>, e: Entry, n: nat)
    requires e.Row? && n <= |listeners|
    ensures IsDelivery(RowDeliveries(listeners, e, n), listeners[..n], 0, e)
  {
    if n > 0 {
      RowDeliveriesAre(listeners, e, n - 1);
      var before := RowDeliveries(listeners, e, n - 1);
      assert forall i | 0 <= i < n - 1 :: listeners[..n][i] == listeners[..n - 1][i];
      assert ToTable(n - 1, e) !in before;
    }
  }

  lemma {:induction false} MarkerDeliveriesAre(listeners: seq<Listener>, e: Entry, n: nat)
    requires e.Complete?
    ensures IsDelivery(MarkerDeliveries(e, n), listeners, n, e)
  {
    if n > 0 {
      MarkerDeliveriesAre(listeners, e, n - 1);
    }
  }

  /** Who gets an entry. */
  lemma DeliveriesAre(listeners: seq<Listener>, transactionListeners: nat, e: Entry)
    ensures IsDelivery(Deliveries(listeners, transactionListeners, e), listeners, transactionListeners, e)
  {
    if e.Complete? {
      MarkerDeliveriesAre(listeners, e, transactionListeners);
    } else {
      RowDeliveriesAre(listeners, e, |listeners|);
      assert listeners[..|listeners|] == listeners;
    }
  }

  /** A part of a sequence of deliveries. */
  lemma RowDeliveriesGrow(listeners: seq<Listener>, e: Entry, i: nat, n: nat)
    requires e.Row? && i <= n <= |listeners|
    ensures RowDeliveries(listeners, e, i) <= RowDeliveries(listeners, e, n)
    decreases n
  {
    if i < n {
      RowDeliveriesGrow(listeners, e, i, n - 1);
    }
  }

  lemma MarkerDeliveriesGrow(e: Entry, i: nat, n: nat)
    requires i <= n
    ensures MarkerDeliveries(e, i) <= MarkerDeliveries(e, n)
    decreases n
  {
    if i < n {
      MarkerDeliveriesGrow(e, i, n - 1);
    }
  }

  /** The call that fails is one that is made, and not of an asynchronous listener. */
  predicate Breaks(listeners: seq<Listener>, transactionListeners: nat, e: Entry, fails: Option<nat>) {
    fails.Some? &&
    if e.Complete? then fails.value < transactionListeners
    else
      && fails.value < |listeners|
      && ListensTo(listeners[fails.value], e.database, e.table) && !listeners[fails.value].async
  }

  // ----- the reconnect counter

  /** A failure of the stream: where the reader was, and where it reconnects. */
  datatype Failure = Failure(current: nat, target: nat)

  predicate Progressed(f: Failure) {
    f.target < f.current
  }

  /** How many of the last failures came without any progress before them. */
  function Stalled(history: seq<Failure>): nat {
    if history == [] || Progressed(history[|history| - 1]) then 0 else Stalled(history[..|history| - 1]) + 1
  }

  /** The last `n` failures came without progress, and the one before them, if any, with progress. */
  predicate StalledFor(history: seq<Failure>, n: nat) {
    && n <= |history|
    && (forall i | |history| - n <= i < |history| :: history[i].current <= history[i].target)
    && (n < |history| ==> history[|history| - n - 1].target < history[|history| - n - 1].current)
  }

  lemma {:induction false} StalledIs(history: seq<Failure>)
    ensures StalledFor(history, Stalled(history))
  {
    if history != [] && !Progressed(history[|history| - 1]) {
      var before := history[..|history| - 1];
      StalledIs(before);
      assert forall i | 0 <= i < |before| :: before[i] == history[i];
    }
  }

  /** The failures that a stream's breaks amount to. */
  function FailuresOf(breaks: seq<Break>, initial: nat): (failures: seq<Failure>)
    ensures |failures| == |breaks|
    ensures forall i | 0 <= i < |breaks| ::
              failures[i] == Failure(breaks[i].current,
                                     if breaks[i].lastTrx.Some? then breaks[i].lastTrx.value else initial)
  {
    seq(|breaks|, i requires 0 <= i < |breaks| =>
      Failure(breaks[i].current, if breaks[i].lastTrx.Some? then breaks[i].lastTrx.value else initial))
  }

  /** Where the stream stood when it failed: the reader's current and last complete coordinates. */
  datatype Break = Break(current: nat, lastTrx: Option<nat>)

  /** Each of the first `n` failures found fewer than `most` without progress in a row before it. */
  ghost predicate Survived(before: seq<Failure>, failures: seq<Failure>, n: nat, most: int)
    requires n <= |failures|
  {
    forall k | 0 <= k < n :: Stalled(before + failures[..k]) < most
  }

  lemma OneMoreFailure(before: seq<Failure>, failures: seq<Failure>, n: nat)
    requires n < |failures|
    ensures before + failures[..n] + [failures[n]] == before + failures[..n + 1]
  {
  }

  // ----- the streamer

  class EventsStreamer {
    const initial: nat
    const maxReconnectAttempts: int
    var listeners: seq<Listener>
    var transactionListeners: nat
    var abortError: Option<string>
    var cancelled: bool
    var successiveFailures: nat
    var connectedAt: nat
    /** What was handed to listeners, and every reconnect. */
    ghost var delivered: seq<Delivery>
    ghost var history: seq<Failure>

    ghost predicate Valid()
      reads this
    {
      && successiveFailures == Stalled(history)
      && (abortError.Some? ==> cancelled)
    }

    constructor (initial: nat, maxReconnectAttempts: int)
      ensures Valid() && listeners == [] && transactionListeners == 0 && !cancelled && delivered == [] && history == []
      ensures this.initial == initial && connectedAt == initial && this.maxReconnectAttempts == maxReconnectAttempts
    {
      this.initial, this.maxReconnectAttempts, connectedAt := initial, maxReconnectAttempts, initial;
      listeners, transactionListeners, abortError, cancelled, successiveFailures := [], 0, None, false, 0;
      delivered, history := [], [];
    }

    method AddListener(async: bool, database: string, table: string) returns (ok: bool)
      modifies this`listeners
      ensures ok <==> database != "" && table != ""
      ensures listeners == if ok then old(listeners) + [Listener(async, database, table)] else old(listeners)
    {
      if database == "" {
        return false;
      }
      if table == "" {
        return false;
      }
      listeners := listeners + [Listener(async, database, table)];
      return true;
    }

    method AddTransactionCompleteListener()
      modifies this`transactionListeners
      ensures transactionListeners == old(transactionListeners) + 1
    {
      transactionListeners := transactionListeners + 1;
    }

    /** Row data is decoded exactly for the tables whose rows some listener would get. */
    method ShouldDecodeRowsEvent(database: string, table: string) returns (r: bool)
      ensures r <==> Wanted(listeners, database, table)
      ensures forall id :: r <==> Deliveries(listeners, transactionListeners, Row(database, table, id)) != []
    {
      r := false;
      for i := 0 to |listeners|
        invariant forall j | 0 <= j < i :: !ListensTo(listeners[j], database, table)
      {
        if !EqualFold(listeners[i].database, database) {
          continue;
        }
        if !EqualFold(listeners[i].table, table) {
          continue;
        }
        r := true;
        break;
      }
      forall id
        ensures Wanted(listeners, database, table) <==>
                Deliveries(listeners, transactionListeners, Row(database, table, id)) != []
      {
        WantedIsDelivered(listeners, Row(database, table, id), |listeners|);
      }
    }

    /** The first error is the one that is kept. */
    method SetAbortError(error: string)
      modifies this`abortError
      ensures abortError == if old(abortError).Some? then old(abortError) else Some(error)
    {
      if abortError.None? {
        abortError := Some(error);
      }
    }

    method CancelContext()
      modifies this`cancelled
      ensures cancelled
    {
      cancelled := true;
    }

    /** Hands a marker to the transaction listeners in turn; `fails` says which call fails, if one does. */
    method NotifyTransaction(e: Entry, fails: Option<nat>) returns (ok: bool)
      requires e.Complete?
      modifies this`delivered
      ensures ok <==> !Breaks(listeners, transactionListeners, e, fails)
      ensures ok ==> delivered == old(delivered) + MarkerDeliveries(e, transactionListeners)
      ensures !ok ==> delivered == old(delivered) + MarkerDeliveries(e, fails.value)
    {
      for i := 0 to transactionListeners
        invariant delivered == old(delivered) + MarkerDeliveries(e, i) && (fails.Some? ==> fails.value >= i)
      {
        if fails == Some(i) {
          return false;
        }
        delivered := delivered + [ToTransaction(i, e)];
      }
      return true;
    }

    /** Hands a row to the listeners of its table in turn; the call of an asynchronous listener never fails. */
    method NotifyTable(e: Entry, fails: Option<nat>) returns (ok: bool)
      requires e.Row?
      modifies this`delivered
      ensures ok <==> !Breaks(listeners, transactionListeners, e, fails)
      ensures ok ==> delivered == old(delivered) + RowDeliveries(listeners, e, |listeners|)
      ensures !ok ==> delivered == old(delivered) + RowDeliveries(listeners, e, fails.value)
    {
      for i := 0 to |listeners|
        invariant delivered == old(delivered) + RowDeliveries(listeners, e, i)
        invariant Breaks(listeners, transactionListeners, e, fails) ==> fails.value >= i
      {
        if !EqualFold(listeners[i].database, e.database) {
          continue;
        }
        if !EqualFold(listeners[i].table, e.table) {
          continue;
        }
        if !listeners[i].async && fails == Some(i) {
          return false;
        }
        delivered := delivered + [ToTable(i, e)];
      }
      return true;
    }

    /** Notifies of one entry. A failure is fatal: the migration is aborted, and nothing is delivered after it. */
    method NotifyListeners(e: Entry, fails: Option<nat>) returns (ok: bool)
      requires Valid()
      modifies this`delivered, this`abortError, this`cancelled
      ensures Valid()
      ensures ok <==> !old(cancelled) && !Breaks(listeners, transactionListeners, e, fails)
      ensures old(cancelled) ==> delivered == old(delivered)
      ensures ok ==> !cancelled && delivered == old(delivered) + Deliveries(listeners, transactionListeners, e)
      ensures IsDelivery(Deliveries(listeners, transactionListeners, e), listeners, transactionListeners, e)
      ensures !ok ==>
                cancelled && abortError.Some? &&
                old(delivered) <= delivered <= old(delivered) + Deliveries(listeners, transactionListeners, e)
      ensures !ok && !old(cancelled) ==>
                delivered == old(delivered) + if e.Complete? then MarkerDeliveries(e, fails.value)
                                              else RowDeliveries(listeners, e, fails.value)
      ensures old(abortError).Some? ==> abortError == old(abortError)
    {
      DeliveriesAre(listeners, transactionListeners, e);
      if abortError.Some? || cancelled {
        ok := false;
      } else if e.Complete? {
        ok := NotifyTransaction(e, fails);
        if !ok {
          MarkerDeliveriesGrow(e, fails.value, transactionListeners);
        }
      } else {
        ok := NotifyTable(e, fails);
        if !ok {
          RowDeliveriesGrow(listeners, e, fails.value, |listeners|);
        }
      }
      if !ok {
        SetAbortError("failed delivery");
        CancelContext();
      }
    }

    /** What the dispatcher does with one entry. */
    method DispatchOne(e: Entry, fails: Option<nat>) returns (ok: bool)
      requires Valid()
      modifies this`delivered, this`abortError, this`cancelled
      ensures Valid()
      ensures ok <==> !old(cancelled) && !Breaks(listeners, transactionListeners, e, fails)
      ensures ok ==> !cancelled && delivered == old(delivered) + Deliveries(listeners, transactionListeners, e)
      ensures !ok ==>
                cancelled && old(delivered) <= delivered &&
                delivered <= old(delivered) + Deliveries(listeners, transactionListeners, e)
    {
      ok := NotifyListeners(e, fails);
    }

    /**
     The dispatcher. What the listeners got is what the first `n` entries amount
     to, in order, and at most a part of the next one, after which nothing more
     is delivered. So a marker is delivered only after every row ahead of it.
     */
    method Dispatch(entries: seq<Entry>, fails: seq<Option<nat>>) returns (ok: bool, n: nat)
      requires Valid() && |fails| == |entries|
      modifies this`delivered, this`abortError, this`cancelled
      ensures Valid() && n <= |entries| && (ok <==> n == |entries|)
      ensures ok ==> delivered == old(delivered) + AllDeliveries(listeners, transactionListeners, entries)
      ensures !ok && !old(cancelled) ==> Breaks(listeners, transactionListeners, entries[n], fails[n])
      ensures forall i | 0 <= i < n :: !Breaks(listeners, transactionListeners, entries[i], fails[i])
      ensures !ok ==>
                var before := old(delivered) + AllDeliveries(listeners, transactionListeners, entries[..n]);
                cancelled && before <= delivered <= before + Deliveries(listeners, transactionListeners, entries[n])
    {
      n := 0;
      while n < |entries|
        invariant n <= |entries| && Valid() && (n > 0 ==> !cancelled) && (n == 0 ==> cancelled == old(cancelled))
        invariant forall i | 0 <= i < n :: !Breaks(listeners, transactionListeners, entries[i], fails[i])
        invariant delivered == old(delivered) + AllDeliveries(listeners, transactionListeners, entries[..n])
      {
        AllDeliveriesOne(listeners, transactionListeners, entries, n, old(delivered));
        ok := DispatchOne(entries[n], fails[n]);
        if !ok {
          return;
        }
        n := n + 1;
      }
      assert entries[..n] == entries;
      ok := true;
    }

    // ----- reconnecting

    /**
     Reconnects after a failure of the stream, unless there were too many in a
     row without progress. The new reader starts at the last transaction read
     completely, or where the streamer itself once started.
     */
    method Reconnect(b: Break) returns (ok: bool)
      requires Valid()
      modifies this`successiveFailures, this`connectedAt, this`history
      ensures Valid()
      ensures ok <==> !(maxReconnectAttempts > 0 && Stalled(old(history)) >= maxReconnectAttempts)
      ensures ok ==> connectedAt == if b.lastTrx.Some? then b.lastTrx.value else initial
      ensures ok ==> history == old(history) + [Failure(b.current, connectedAt)]
      ensures !ok ==> connectedAt == old(connectedAt) && history == old(history)
      ensures ok ==> successiveFailures == if connectedAt < b.current then 0 else old(successiveFailures) + 1
    {
      if maxReconnectAttempts > 0 && successiveFailures >= maxReconnectAttempts {
        return false;
      }
      var reconnectCoords := initial;
      if b.lastTrx.Some? {
        reconnectCoords := b.lastTrx.value;
      }
      history := history + [Failure(b.current, reconnectCoords)];
      assert history[..|history| - 1] == old(history);
      if !(reconnectCoords < b.current) {
        successiveFailures := successiveFailures + 1;
      } else {
        successiveFailures := 0;
      }
      connectedAt := reconnectCoords;
      return true;
    }

    /**
     Reconnects again and again, until a break that comes after as many failures without
     progress in a row as are allowed; `n` breaks were survived.
     */
    method StreamEvents(breaks: seq<Break>) returns (ok: bool, n: nat)
      requires Valid()
      modifies this`successiveFailures, this`connectedAt, this`history
      ensures Valid() && n <= |breaks| && (ok <==> n == |breaks|)
      ensures history == old(history) + FailuresOf(breaks, initial)[..n]
      ensures !ok ==> maxReconnectAttempts > 0 && Stalled(history) >= maxReconnectAttempts
      ensures maxReconnectAttempts > 0 ==> Survived(old(history), FailuresOf(breaks, initial), n, maxReconnectAttempts)
    {
      n := 0;
      ghost var failures := FailuresOf(breaks, initial);
      while n < |breaks|
        invariant Valid() && n <= |breaks|
        invariant history == old(history) + failures[..n]
        invariant maxReconnectAttempts > 0 ==> Survived(old(history), failures, n, maxReconnectAttempts)
      {
        ok := Reconnect(breaks[n]);
        if !ok {
          return;
        }
        OneMoreFailure(old(history), failures, n);
        n := n + 1;
      }
      ok := true;
    }
  }
}
