/**
 What a binlog reader sends for a stretch of the log, transaction by transaction.
 */
module Transactions {
  import opened Wrappers

  /** An entry on the channel: a row change or the completion marker of a transaction, with its coordinates. */
  datatype Entry<C, R> = RowEntry(coords: C, change: R) | Marker(coords: C)

  /** A part of the log that the reader acts on: the rows of one event, or the end of a transaction. */
  datatype Atom<C, R> = RowsAt(coords: C, changes: seq<R>) | EndAt(coords: C)

  function RowEntries<C, R>(coords: C, changes: seq<R>): (entries: seq<Entry<C, R>>)
    ensures |entries| == |changes| && forall i | 0 <= i < |changes| :: entries[i] == RowEntry(coords, changes[i])
  {
    seq(|changes|, i requires 0 <= i < |changes| => RowEntry(coords, changes[i]))
  }

  /** Whether rows were sent since the last end of a transaction. */
  function After<C, R>(pending: bool, a: Atom<C, R>): bool {
    a.RowsAt? && (pending || a.changes != [])
  }

  function PendingAfter<C, R>(atoms: seq<Atom<C, R>>, pending: bool): bool
    decreases |atoms|
  {
    if atoms == [] then pending else PendingAfter(atoms[1..], After(pending, atoms[0]))
  }

  /** What is sent for one atom. */
  function SentFor<C, R>(a: Atom<C, R>, pending: bool): seq<Entry<C, R>> {
    match a
    case RowsAt(coords, changes) => RowEntries(coords, changes)
    case EndAt(coords) => if pending then [Marker(coords)] else []
  }

  function Sent<C, R>(atoms: seq<Atom<C, R>>, pending: bool): seq<Entry<C, R>>
    decreases |atoms|
  {
    if atoms == [] then [] else SentFor(atoms[0], pending) + Sent(atoms[1..], After(pending, atoms[0]))
  }

  /** The coordinates of the last transaction that ended. */
  function LastEnd<C, R>(atoms: seq<Atom<C, R>>): Option<C> {
    if atoms == [] then None
    else
      var last := atoms[|atoms| - 1];
      if last.EndAt? then Some(last.coords) else LastEnd(atoms[..|atoms| - 1])
  }

  lemma {:induction false} PendingAppend<C, R>(a: seq<Atom<C, R>>, b: seq<Atom<C, R>>, pending: bool)
    ensures PendingAfter(a + b, pending) == PendingAfter(b, PendingAfter(a, pending))
    decreases |a|
  {
    if a == [] {
      assert a + b == b;
    } else {
      assert (a + b)[0] == a[0] && (a + b)[1..] == a[1..] + b;
      PendingAppend(a[1..], b, After(pending, a[0]));
    }
  }

  lemma {:induction false} SentAppend<C, R>(a: seq<Atom<C, R>>, b: seq<Atom<C, R>>, pending: bool)
    ensures Sent(a + b, pending) == Sent(a, pending) + Sent(b, PendingAfter(a, pending))
    decreases |a|
  {
    if a == [] {
      assert a + b == b;
    } else {
      assert (a + b)[0] == a[0] && (a + b)[1..] == a[1..] + b;
      SentAppend(a[1..], b, After(pending, a[0]));
    }
  }

  lemma {:induction false} LastEndAppend<C, R>(a: seq<Atom<C, R>>, b: seq<Atom<C, R>>)
    ensures LastEnd(a + b) == if LastEnd(b).Some? then LastEnd(b) else LastEnd(a)
    decreases |b|
  {
    if b == [] {
      assert a + b == a;
    } else {
      var n := |b| - 1;
      assert (a + b)[..|a| + n] == a + b[..n];
      LastEndAppend(a, b[..n]);
    }
  }

  lemma SentOne<C, R>(atoms: seq<Atom<C, R>>, a: Atom<C, R>)
    ensures Sent(atoms + [a], false) == Sent(atoms, false) + SentFor(a, PendingAfter(atoms, false))
    ensures PendingAfter(atoms + [a], false) == After(PendingAfter(atoms, false), a)
    ensures LastEnd(atoms + [a]) == if a.EndAt? then Some(a.coords) else LastEnd(atoms)
  {
    SentAppend(atoms, [a], false);
    PendingAppend(atoms, [a], false);
    assert [a][1..] == [];
    assert Sent([a], PendingAfter(atoms, false)) == SentFor(a, PendingAfter(atoms, false)) + [];
    assert (atoms + [a])[..|atoms|] == atoms;
  }

  // ----- whole transactions

  predicate OnlyRows<C, R>(atoms: seq<Atom<C, R>>) {
    forall i | 0 <= i < |atoms| :: atoms[i].RowsAt?
  }

  predicate AtBoundary<C, R>(atoms: seq<Atom<C, R>>) {
    atoms == [] || atoms[|atoms| - 1].EndAt?
  }

  lemma {:induction false} RowsOnly<C, R>(atoms: seq<Atom<C, R>>, pending: bool)
    requires OnlyRows(atoms)
    ensures forall i | 0 <= i < |Sent(atoms, pending)| :: Sent(atoms, pending)[i].RowEntry?
    ensures PendingAfter(atoms, pending) <==> pending || Sent(atoms, pending) != []
    decreases |atoms|
  {
    if atoms != [] {
      RowsOnly(atoms[1..], After(pending, atoms[0]));
    }
  }

  lemma NothingPending<C, R>(done: seq<Atom<C, R>>)
    requires AtBoundary(done)
    ensures !PendingAfter(done, false)
  {
    if done != [] {
      var n := |done| - 1;
      assert done == done[..n] + [done[n]];
      SentOne(done[..n], done[n]);
    }
  }

  /** From a boundary on, what is sent does not depend on what went before. */
  lemma SentFromBoundary<C, R>(done: seq<Atom<C, R>>, rest: seq<Atom<C, R>>)
    requires AtBoundary(done)
    ensures Sent(done + rest, false) == Sent(done, false) + Sent(rest, false)
  {
    NothingPending(done);
    SentAppend(done, rest, false);
  }

  /** Each transaction that delivered rows is followed by exactly one marker, and any other by none. */
  lemma OneMarkerPerTransaction<C, R>(done: seq<Atom<C, R>>, rows: seq<Atom<C, R>>, end: C, rest: seq<Atom<C, R>>)
    requires AtBoundary(done) && OnlyRows(rows)
    ensures var delivered := Sent(rows, false);
            && (forall i | 0 <= i < |delivered| :: delivered[i].RowEntry?)
            && Sent(done + ((rows + [EndAt(end)]) + rest), false) ==
               Sent(done, false) + ((delivered + if delivered == [] then [] else [Marker(end)]) + Sent(rest, false))
  {
    var transaction := rows + [EndAt(end)];
    RowsOnly(rows, false);
    SentOne(rows, EndAt(end));
    SentFromBoundary(done, transaction + rest);
    SentFromBoundary(transaction, rest);
  }

  /** The complete transactions of a stretch of the log, and the rows behind the last of them. */
  lemma {:induction false} LastBoundary<C, R>(atoms: seq<Atom<C, R>>)
    returns (done: seq<Atom<C, R>>, unfinished: seq<Atom<C, R>>)
    ensures atoms == done + unfinished && AtBoundary(done) && OnlyRows(unfinished)
    ensures LastEnd(atoms) == if done == [] then None else Some(done[|done| - 1].coords)
  {
    if AtBoundary(atoms) {
      done, unfinished := atoms, [];
    } else {
      var n := |atoms| - 1;
      done, unfinished := LastBoundary(atoms[..n]);
      unfinished := unfinished + [atoms[n]];
      assert atoms == atoms[..n] + [atoms[n]];
    }
  }

  lemma SentAgain<C, R>(done: seq<Atom<C, R>>, unfinished: seq<Atom<C, R>>, ahead: seq<Atom<C, R>>)
    requires AtBoundary(done)
    ensures Sent((done + unfinished) + ahead, false) == Sent(done, false) + Sent(unfinished + ahead, false)
  {
    assert (done + unfinished) + ahead == done + (unfinished + ahead);
    SentFromBoundary(done, unfinished + ahead);
  }

  /**
   Reconnecting at the end of the last complete transaction: `read` is what the
   old reader had read, `ahead` what the log holds behind it. What was sent up to
   that end stays sent, and the new reader sends exactly what comes after it: no
   transaction whose marker was sent is sent again, and no row is left out.
   */
  lemma ReconnectResendsOnlyUnfinished<C, R>(read: seq<Atom<C, R>>, ahead: seq<Atom<C, R>>)
    returns (done: seq<Atom<C, R>>, unfinished: seq<Atom<C, R>>)
    ensures read == done + unfinished && LastEnd(read) == if done == [] then None else Some(done[|done| - 1].coords)
    ensures Sent(read, false) == Sent(done, false) + Sent(unfinished, false)
    ensures forall i | 0 <= i < |Sent(unfinished, false)| :: Sent(unfinished, false)[i].RowEntry?
    ensures Sent(read + ahead, false) == Sent(done, false) + Sent(unfinished + ahead, false)
  {
    done, unfinished := LastBoundary(read);
    SentFromBoundary(done, unfinished);
    RowsOnly(unfinished, false);
    SentAgain(done, unfinished, ahead);
  }

  // ----- coordinates do not matter

  datatype Plain<R> = PlainRow(change: R) | PlainMarker

  function WithoutCoords<C, R>(entries: seq<Entry<C, R>>): (plain: seq<Plain<R>>)
    ensures |plain| == |entries|
    ensures forall i | 0 <= i < |entries| ::
              plain[i] == if entries[i].RowEntry? then PlainRow(entries[i].change) else PlainMarker
  {
    seq(|entries|,
        i requires 0 <= i < |entries| => if entries[i].RowEntry? then PlainRow(entries[i].change) else PlainMarker)
  }

  predicate SameUpToCoords<C, R(==)>(a: seq<Atom<C, R>>, b: seq<Atom<C, R>>) {
    && |a| == |b|
    && forall i | 0 <= i < |a| ::
         a[i].RowsAt? == b[i].RowsAt? && (a[i].RowsAt? ==> a[i].changes == b[i].changes)
  }

  lemma WithoutCoordsAppend<C, R>(a: seq<Entry<C, R>>, b: seq<Entry<C, R>>)
    ensures WithoutCoords(a + b) == WithoutCoords(a) + WithoutCoords(b)
  {
  }

  /** Which rows and markers are sent does not depend on the coordinates. */
  lemma {:induction false} SentUpToCoords<C, R>(a: seq<Atom<C, R>>, b: seq<Atom<C, R>>, pending: bool)
    requires SameUpToCoords(a, b)
    ensures WithoutCoords(Sent(a, pending)) == WithoutCoords(Sent(b, pending))
    decreases |a|
  {
    if a != [] {
      var x, y := SentFor(a[0], pending), SentFor(b[0], pending);
      assert WithoutCoords(x) == WithoutCoords(y);
      SentUpToCoords(a[1..], b[1..], After(pending, a[0]));
      WithoutCoordsAppend(x, Sent(a[1..], After(pending, a[0])));
      WithoutCoordsAppend(y, Sent(b[1..], After(pending, b[0])));
    }
  }
}
