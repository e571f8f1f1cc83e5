/**
 The binlog reader: an event loop that updates its coordinates in place and
 sends rows and transaction markers on a channel.
 */
module Reader {
  import opened Wrappers
  import opened Columns
  import opened Coordinates
  import opened Transactions
  import RowEvents

  type Tag = RowEvents.Tag
  type RowImage = seq<Datum>

  datatype Coords = File(file: FileCoordinates) | Gtids(gtids: set<Gtid>)

  datatype RowChange = RowChange(dml: Tag, where: Option<RowImage>, values: Option<RowImage>)

  /** The events the reader acts on; a payload is a compressed transaction. */
  datatype Body =
    | GtidNext(next: Gtid)
    | Rotate(nextFile: string)
    | Xid(executed: Option<set<Gtid>>)
    | Rows(dml: Tag, rows: seq<RowImage>)
    | Payload(nested: seq<Body>)
    | Other

  datatype LogEvent = LogEvent(logPos: int, size: int, body: Body)

  // ----- what an event amounts to

  /** Rows of an update come in pairs. */
  predicate WellPaired(body: Body) {
    match body
    case Rows(dml, rows) => dml.UpdateDML? ==> |rows| % 2 == 0
    case Payload(nested) => forall i | 0 <= i < |nested| :: WellPaired(nested[i])
    case _ => true
  }

  function ChangeAt(dml: Tag, rows: seq<RowImage>, i: nat): RowChange
    requires i < |rows| && (dml.UpdateDML? ==> i + 1 < |rows|)
  {
    match dml
    case InsertDML => RowChange(dml, None, Some(rows[i]))
    case UpdateDML => RowChange(dml, Some(rows[i]), Some(rows[i + 1]))
    case DeleteDML => RowChange(dml, Some(rows[i]), None)
    case NotDML => RowChange(dml, None, None)
  }

  /** The changes among the first `i` rows: one for each, or for each pair of an update. */
  function ChangesUpTo(dml: Tag, rows: seq<RowImage>, i: nat): seq<RowChange>
    requires i <= |rows| && (dml.UpdateDML? ==> |rows| % 2 == 0)
  {
    if i == 0 then []
    else if dml.UpdateDML? && (i - 1) % 2 == 1 then ChangesUpTo(dml, rows, i - 1)
    else ChangesUpTo(dml, rows, i - 1) + [ChangeAt(dml, rows, i - 1)]
  }

  /** An update event with 2n rows has n changes, any other event one for each row. */
  lemma {:induction false} ChangesCount(dml: Tag, rows: seq<RowImage>, i: nat)
    requires i <= |rows| && (dml.UpdateDML? ==> |rows| % 2 == 0)
    ensures |ChangesUpTo(dml, rows, i)| == if dml.UpdateDML? then (i + 1) / 2 else i
  {
    if i > 0 {
      ChangesCount(dml, rows, i - 1);
    }
  }

  /**
   The changes of a rows event: for each pair of rows of an update the first as the old
   and the second as the new image, for each row of an insert only the new image, and for
   each row of a delete only the old one.
   */
  predicate AreChangesOf(changes: seq<RowChange>, dml: Tag, rows: seq<RowImage>) {
    match dml
    case InsertDML =>
      |changes| == |rows| &&
      forall j | 0 <= j < |changes| :: changes[j] == RowChange(dml, None, Some(rows[j]))
    case UpdateDML =>
      2 * |changes| == |rows| &&
      forall j | 0 <= j < |changes| :: changes[j] == RowChange(dml, Some(rows[2 * j]), Some(rows[2 * j + 1]))
    case DeleteDML =>
      |changes| == |rows| &&
      forall j | 0 <= j < |changes| :: changes[j] == RowChange(dml, Some(rows[j]), None)
    case NotDML => true
  }

  lemma {:induction false} ChangesTo(dml: Tag, rows: seq<RowImage>, i: nat)
    requires i <= |rows| && !dml.NotDML? && (dml.UpdateDML? ==> |rows| % 2 == 0 && i % 2 == 0)
    ensures AreChangesOf(ChangesUpTo(dml, rows, i), dml, rows[..i])
  {
    if i > 0 {
      if dml.UpdateDML? {
        ChangesTo(dml, rows, i - 2);
        var before := ChangesUpTo(dml, rows, i - 2);
        assert ChangesUpTo(dml, rows, i) == before + [ChangeAt(dml, rows, i - 2)];
        assert forall j | 0 <= j < |before| :: rows[..i - 2][2 * j] == rows[..i][2 * j];
        assert forall j | 0 <= j < |before| :: rows[..i - 2][2 * j + 1] == rows[..i][2 * j + 1];
      } else {
        ChangesTo(dml, rows, i - 1);
      }
    }
  }

  /** Which changes a rows event amounts to. */
  lemma ChangesAre(dml: Tag, rows: seq<RowImage>)
    requires !dml.NotDML? && (dml.UpdateDML? ==> |rows| % 2 == 0)
    ensures AreChangesOf(ChangesUpTo(dml, rows, |rows|), dml, rows)
  {
    ChangesTo(dml, rows, |rows|);
    assert rows[..|rows|] == rows;
  }

  function EndCoords(useGTIDs: bool, current: Coords, executed: Option<set<Gtid>>): Coords {
    if useGTIDs && executed.Some? then Gtids(executed.value) else current
  }

  function AtomsOfOne(useGTIDs: bool, current: Coords, body: Body): seq<Atom<Coords, RowChange>>
    requires WellPaired(body)
  {
    match body
    case Rows(dml, rows) => [RowsAt(current, ChangesUpTo(dml, rows, |rows|))]
    case Xid(executed) => [EndAt(EndCoords(useGTIDs, current, executed))]
    case _ => []
  }

  function AtomsUpTo(useGTIDs: bool, current: Coords, nested: seq<Body>, i: nat): seq<Atom<Coords, RowChange>>
    requires i <= |nested| && forall j | 0 <= j < |nested| :: WellPaired(nested[j])
  {
    if i == 0 then [] else AtomsUpTo(useGTIDs, current, nested, i - 1) + AtomsOfOne(useGTIDs, current, nested[i - 1])
  }

  function AtomsOf(useGTIDs: bool, current: Coords, body: Body): seq<Atom<Coords, RowChange>>
    requires WellPaired(body)
  {
    if body.Payload? then AtomsUpTo(useGTIDs, current, body.nested, |body.nested|)
    else AtomsOfOne(useGTIDs, current, body)
  }

  lemma Associate(x: seq<Atom<Coords, RowChange>>, y: seq<Atom<Coords, RowChange>>, z: seq<Atom<Coords, RowChange>>)
    ensures (x + y) + z == x + (y + z)
  {
  }

  predicate IsLogPosOverflowBeyond4Bytes(c: FileCoordinates, previous: FileCoordinates) {
    previous.logFile != "" && c.logFile == previous.logFile && previous.logPos + c.eventSize >= 0x1_0000_0000
  }

  // ----- a stretch of the log

  /** The reader's place: its current coordinates and those of the last complete transaction. */
  datatype Cursor = Cursor(current: Coords, lastTrx: Option<Coords>)

  predicate Consistent(c: Cursor) {
    c.lastTrx.Some? ==> (c.current.Gtids? <==> c.lastTrx.value.Gtids?)
  }

  /** Where an event moves the current coordinates. */
  function Moved(c: Cursor, ev: LogEvent): Coords
    requires Consistent(c)
  {
    if c.current.Gtids? then
      if ev.body.GtidNext? then
        Gtids((if c.lastTrx.Some? then c.lastTrx.value.gtids else c.current.gtids) + {ev.body.next})
      else c.current
    else File(FileCoordinates(if ev.body.Rotate? then ev.body.nextFile else c.current.file.logFile, ev.logPos, ev.size))
  }

  ghost predicate AllPaired(events: seq<LogEvent>) {
    forall i | 0 <= i < |events| :: WellPaired(events[i].body)
  }

  /** The place behind the first `i` events, when all of them are read. */
  ghost function PlaceAfter(c: Cursor, events: seq<LogEvent>, i: nat): (r: Cursor)
    requires Consistent(c) && AllPaired(events) && i <= |events|
    ensures Consistent(r) && (r.current.Gtids? <==> c.current.Gtids?)
  {
    if i == 0 then c
    else
      var before := PlaceAfter(c, events, i - 1);
      var current := Moved(before, events[i - 1]);
      var end := LastEnd(AtomsOf(c.current.Gtids?, current, events[i - 1].body));
      EndsConsistent(c.current.Gtids?, current, events[i - 1].body);
      Cursor(current, if end.Some? then end else before.lastTrx)
  }

  /** What the first `i` events amount to, read from that place on. */
  ghost function LogAtoms(c: Cursor, events: seq<LogEvent>, i: nat): seq<Atom<Coords, RowChange>>
    requires Consistent(c) && AllPaired(events) && i <= |events|
  {
    if i == 0 then []
    else LogAtoms(c, events, i - 1) + AtomsOf(c.current.Gtids?, PlaceAfter(c, events, i).current, events[i - 1].body)
  }

  // ----- what the coordinates say

  /** File `file` is the one that the last rotation among the first `i` events named, or the one read from the start. */
  predicate IsCurrentFile(file: string, start: string, events: seq<LogEvent>, i: nat)
    requires i <= |events|
  {
    || (file == start && forall k | 0 <= k < i :: !events[k].body.Rotate?)
    || exists k :: 0 <= k < i && events[k].body.Rotate? && file == events[k].body.nextFile &&
                   forall m | k < m < i :: !events[m].body.Rotate?
  }

  /** File coordinates are the header's of the last event, in the file that was last rotated to. */
  lemma {:induction false} FilePlace(c: Cursor, events: seq<LogEvent>, i: nat)
    requires Consistent(c) && AllPaired(events) && c.current.File? && i <= |events|
    ensures var f := PlaceAfter(c, events, i).current.file;
            && IsCurrentFile(f.logFile, c.current.file.logFile, events, i)
            && (i > 0 ==> f.logPos == events[i - 1].logPos && f.eventSize == events[i - 1].size)
  {
    if i > 0 {
      FilePlace(c, events, i - 1);
      var f, g := PlaceAfter(c, events, i - 1).current.file, PlaceAfter(c, events, i).current.file;
      if events[i - 1].body.Rotate? {
        assert g.logFile == events[i - 1].body.nextFile;
      } else {
        assert g.logFile == f.logFile;
      }
    }
  }

  /** A transaction was begun and not ended. */
  predicate Open(events: seq<LogEvent>, i: nat)
    requires i <= |events|
  {
    i > 0 && (events[i - 1].body.GtidNext? || (!events[i - 1].body.Xid? && Open(events, i - 1)))
  }

  /** Every transaction is begun when the one before it has ended, and its end does not say what was executed. */
  ghost predicate OneByOne(events: seq<LogEvent>) {
    forall i | 0 <= i < |events| ::
      && !events[i].body.Payload? && (events[i].body.GtidNext? ==> !Open(events, i))
      && (events[i].body.Xid? ==> events[i].body.executed.None?)
  }

  /** The transactions begun by the first `i` events. */
  ghost function Begun(events: seq<LogEvent>, i: nat): set<Gtid>
    requires i <= |events|
  {
    set k | 0 <= k < i && events[k].body.GtidNext? :: events[k].body.next
  }

  lemma BegunOne(events: seq<LogEvent>, i: nat)
    requires i < |events|
    ensures Begun(events, i + 1) == Begun(events, i) + if events[i].body.GtidNext? then {events[i].body.next} else {}
  {
    var begun, more := Begun(events, i), if events[i].body.GtidNext? then {events[i].body.next} else {};
    forall g ensures g in Begun(events, i + 1) <==> g in begun + more {
      if g in Begun(events, i + 1) {
        var k :| 0 <= k < i + 1 && events[k].body.GtidNext? && events[k].body.next == g;
        assert k < i ==> g in begun;
      }
    }
  }

  /**
   GTID coordinates name just the transactions that were read: those of the start and all
   that were begun since; and the last complete ones lack at most the open one.
   */
  lemma {:induction false} GtidPlace(c: Cursor, events: seq<LogEvent>, i: nat)
    requires Consistent(c) && AllPaired(events) && c.current.Gtids? && c.lastTrx.None? && i <= |events| &&
             OneByOne(events)
    ensures var place := PlaceAfter(c, events, i);
            && place.current.gtids == c.current.gtids + Begun(events, i)
            && (!Open(events, i) && place.lastTrx.Some? ==> place.lastTrx == Some(place.current))
            && (!Open(events, i) && place.lastTrx.None? ==> place.current == c.current)
  {
    if i > 0 {
      GtidPlace(c, events, i - 1);
      BegunOne(events, i - 1);
      var before, ev := PlaceAfter(c, events, i - 1), events[i - 1];
      var current := Moved(before, ev);
      assert AtomsOf(true, current, ev.body) == AtomsOfOne(true, current, ev.body);
      assert LastEnd(AtomsOfOne(true, current, ev.body)) == if ev.body.Xid? then Some(current) else None;
    }
  }

  lemma {:induction false} PlaceIsRead(c: Cursor, events: seq<LogEvent>, i: nat)
    requires Consistent(c) && AllPaired(events) && i <= |events| && c.lastTrx.None?
    ensures PlaceAfter(c, events, i).lastTrx == LastEnd(LogAtoms(c, events, i))
  {
    if i > 0 {
      PlaceIsRead(c, events, i - 1);
      LastEndAppend(LogAtoms(c, events, i - 1),
                    AtomsOf(c.current.Gtids?, PlaceAfter(c, events, i).current, events[i - 1].body));
    }
  }

  /** One more event read. */
  lemma OneMore(c: Cursor, events: seq<LogEvent>, i: nat, place: Cursor, atoms: seq<Atom<Coords, RowChange>>)
    requires Consistent(c) && AllPaired(events) && i < |events| && c.lastTrx.None?
    requires place.current == Moved(PlaceAfter(c, events, i), events[i]) && place.lastTrx == LastEnd(atoms)
    requires atoms == LogAtoms(c, events, i) + AtomsOf(c.current.Gtids?, place.current, events[i].body)
    ensures atoms == LogAtoms(c, events, i + 1) && place == PlaceAfter(c, events, i + 1)
  {
    PlaceIsRead(c, events, i + 1);
  }

  lemma {:induction false} EndsConsistentUpTo(useGTIDs: bool, current: Coords, nested: seq<Body>, i: nat)
    requires i <= |nested| && (forall j | 0 <= j < |nested| :: WellPaired(nested[j])) && (useGTIDs <==> current.Gtids?)
    ensures var end := LastEnd(AtomsUpTo(useGTIDs, current, nested, i)); end.Some? ==> (end.value.Gtids? <==> useGTIDs)
  {
    if i > 0 {
      EndsConsistentUpTo(useGTIDs, current, nested, i - 1);
      LastEndAppend(AtomsUpTo(useGTIDs, current, nested, i - 1), AtomsOfOne(useGTIDs, current, nested[i - 1]));
    }
  }

  lemma EndsConsistent(useGTIDs: bool, current: Coords, body: Body)
    requires WellPaired(body) && (useGTIDs <==> current.Gtids?)
    ensures var end := LastEnd(AtomsOf(useGTIDs, current, body)); end.Some? ==> (end.value.Gtids? <==> useGTIDs)
  {
    if body.Payload? {
      EndsConsistentUpTo(useGTIDs, current, body.nested, |body.nested|);
    }
  }

  // ----- compressed transactions

  /** What a compressed payload holds: it neither begins a transaction nor ends a file. */
  predicate Nestable(body: Body) {
    body.Rows? || body.Xid? || body.Other?
  }

  /** The payload holds just these events. */
  ghost predicate Compresses(payload: LogEvent, events: seq<LogEvent>) {
    && payload.body.Payload? && |payload.body.nested| == |events|
    && forall i | 0 <= i < |events| ::
         payload.body.nested[i] == events[i].body && Nestable(events[i].body) && WellPaired(events[i].body)
  }

  lemma {:induction false} SameAtoms(c: Cursor, payload: LogEvent, events: seq<LogEvent>, i: nat)
    requires Consistent(c) && Compresses(payload, events) && i <= |events|
    ensures var useGTIDs, read := c.current.Gtids?, LogAtoms(c, events, i);
            var nested := AtomsUpTo(useGTIDs, Moved(c, payload), payload.body.nested, i);
            && SameUpToCoords(nested, read)
            && (useGTIDs ==> nested == read && PlaceAfter(c, events, i).current == c.current)
  {
    if i > 0 {
      SameAtoms(c, payload, events, i - 1);
    }
  }

  /**
   A compressed payload is read like its events streamed one by one, wherever they
   are: the same rows and markers, and with GTIDs also the same coordinates.
   */
  lemma PayloadLikeItsEvents(c: Cursor, payload: LogEvent, events: seq<LogEvent>, pending: bool)
    requires Consistent(c) && Compresses(payload, events)
    ensures var whole, separate := LogAtoms(c, [payload], 1), LogAtoms(c, events, |events|);
            && WithoutCoords(Sent(whole, pending)) == WithoutCoords(Sent(separate, pending))
            && (c.current.Gtids? ==> whole == separate)
  {
    var whole, separate := LogAtoms(c, [payload], 1), LogAtoms(c, events, |events|);
    assert PlaceAfter(c, [payload], 0) == c && LogAtoms(c, [payload], 0) == [];
    assert PlaceAfter(c, [payload], 1).current == Moved(c, payload);
    SameAtoms(c, payload, events, |events|);
    assert whole == AtomsUpTo(c.current.Gtids?, Moved(c, payload), payload.body.nested, |events|);
    SentUpToCoords(whole, separate, pending);
  }

  // ----- rows that nobody wants

  lemma SilentIsNothing(before: seq<Atom<Coords, RowChange>>, silent: Atom<Coords, RowChange>,
                        after: seq<Atom<Coords, RowChange>>, pending: bool)
    requires silent.RowsAt? && silent.changes == []
    ensures Sent(before + [silent] + after, pending) == Sent(before + after, pending)
  {
    var was := PendingAfter(before, pending);
    var one := [silent];
    assert one[0] == silent && one[1..] == [];
    assert Sent(one, was) == SentFor(silent, was) + [];
    assert PendingAfter(one, was) == PendingAfter(one[1..], was);
    SentAppend(before + one, after, pending);
    SentAppend(before, one, pending);
    SentAppend(before, after, pending);
    PendingAppend(before, one, pending);
  }

  /**
   The rows of a table without a listener are not decoded. Their events send nothing
   and call for no marker: the stream is as if they were not in the log.
   */
  lemma UndecodedIsSilent(before: seq<Atom<Coords, RowChange>>, useGTIDs: bool, current: Coords, dml: Tag,
                          after: seq<Atom<Coords, RowChange>>, pending: bool)
    ensures Sent(before + AtomsOfOne(useGTIDs, current, Rows(dml, [])) + after, pending) ==
            Sent(before + after, pending)
  {
    SilentIsNothing(before, RowsAt(current, []), after, pending);
    assert AtomsOfOne(useGTIDs, current, Rows(dml, [])) == [RowsAt(current, [])];
  }

  // ----- a stream that is cut short

  /** Sent no more than the atoms amount to. */
  ghost predicate Within(sent: seq<Entry<Coords, RowChange>>, atoms: seq<Atom<Coords, RowChange>>) {
    sent <= Sent(atoms, false)
  }

  lemma WithinMore(sent: seq<Entry<Coords, RowChange>>, atoms: seq<Atom<Coords, RowChange>>,
                   more: seq<Atom<Coords, RowChange>>)
    requires Within(sent, atoms)
    ensures Within(sent, atoms + more)
  {
    SentAppend(atoms, more, false);
    assert Sent(atoms, false) <= Sent(atoms + more, false);
  }

  lemma WithinRows(atoms: seq<Atom<Coords, RowChange>>, coords: Coords, changes: seq<RowChange>,
                   part: seq<Entry<Coords, RowChange>>)
    requires part <= RowEntries(coords, changes)
    ensures Within(Sent(atoms, false) + part, atoms + [RowsAt(coords, changes)])
  {
    SentOne(atoms, RowsAt(coords, changes));
  }

  lemma {:induction false} WithinPayload(sent: seq<Entry<Coords, RowChange>>, atoms: seq<Atom<Coords, RowChange>>,
                                         useGTIDs: bool, current: Coords, nested: seq<Body>, i: nat)
    requires i <= |nested| && forall j | 0 <= j < |nested| :: WellPaired(nested[j])
    requires Within(sent, atoms + AtomsUpTo(useGTIDs, current, nested, i))
    ensures Within(sent, atoms + AtomsUpTo(useGTIDs, current, nested, |nested|))
    decreases |nested| - i
  {
    if i < |nested| {
      var read, one := AtomsUpTo(useGTIDs, current, nested, i), AtomsOfOne(useGTIDs, current, nested[i]);
      WithinMore(sent, atoms + read, one);
      Associate(atoms, read, one);
      WithinPayload(sent, atoms, useGTIDs, current, nested, i + 1);
    }
  }

  /** The payload was cut short in its event `i`. */
  lemma WithinNested(sent: seq<Entry<Coords, RowChange>>, atoms: seq<Atom<Coords, RowChange>>,
                     read: seq<Atom<Coords, RowChange>>, useGTIDs: bool, current: Coords, nested: seq<Body>, i: nat)
    requires i < |nested| && forall j | 0 <= j < |nested| :: WellPaired(nested[j])
    requires read == AtomsUpTo(useGTIDs, current, nested, i)
    requires Within(sent, (atoms + read) + AtomsOfOne(useGTIDs, current, nested[i]))
    ensures Within(sent, atoms + AtomsUpTo(useGTIDs, current, nested, |nested|))
    ensures nested[i].Rows? && nested[i].dml.NotDML? ==> Unreadable(Payload(nested))
  {
    Associate(atoms, read, AtomsOfOne(useGTIDs, current, nested[i]));
    WithinPayload(sent, atoms, useGTIDs, current, nested, i + 1);
  }

  /** The event ends, in its file, behind the last position that four bytes hold. */
  predicate Beyond(before: Coords, ev: LogEvent) {
    before.File? && before.file.logPos + ev.size > 0xFFFF_FFFF
  }

  /** An event that no reader can make sense of. */
  predicate Unreadable(body: Body) {
    match body
    case Rows(dml, _) => dml.NotDML?
    case Payload(nested) => exists i :: 0 <= i < |nested| && nested[i].Rows? && nested[i].dml.NotDML?
    case _ => false
  }

  // ----- the reader

  /**
   What was sent is what the log amounts to so far, and the last coordinates are the
   end of its last complete transaction.
   */
  ghost predicate Tracks(sent: seq<Entry<Coords, RowChange>>, atoms: seq<Atom<Coords, RowChange>>,
                         partial: seq<Entry<Coords, RowChange>>, lastTrx: Option<Coords>, hasRows: bool) {
    && sent == Sent(atoms, false) + partial
    && (forall i | 0 <= i < |partial| :: partial[i].RowEntry?)
    && lastTrx == LastEnd(atoms)
    && hasRows == (PendingAfter(atoms, false) || partial != [])
  }

  lemma TracksRows(sent: seq<Entry<Coords, RowChange>>, atoms: seq<Atom<Coords, RowChange>>, lastTrx: Option<Coords>,
                   hasRows: bool, coords: Coords, changes: seq<RowChange>)
    requires Tracks(sent, atoms, [], lastTrx, hasRows)
    ensures Tracks(sent + RowEntries(coords, changes), atoms + [RowsAt(coords, changes)], [], lastTrx,
                   hasRows || RowEntries(coords, changes) != [])
  {
    SentOne(atoms, RowsAt(coords, changes));
    assert sent == Sent(atoms, false);
    assert Sent(atoms + [RowsAt(coords, changes)], false) + [] == sent + RowEntries(coords, changes);
  }

  lemma TracksPart(sent: seq<Entry<Coords, RowChange>>, atoms: seq<Atom<Coords, RowChange>>, lastTrx: Option<Coords>,
                   hasRows: bool, part: seq<Entry<Coords, RowChange>>)
    requires Tracks(sent, atoms, [], lastTrx, hasRows) && forall i | 0 <= i < |part| :: part[i].RowEntry?
    ensures Tracks(sent + part, atoms, part, lastTrx, hasRows || part != [])
  {
    assert sent == Sent(atoms, false);
  }

  lemma TracksEnd(sent: seq<Entry<Coords, RowChange>>, atoms: seq<Atom<Coords, RowChange>>, lastTrx: Option<Coords>,
                  hasRows: bool, coords: Coords)
    requires Tracks(sent, atoms, [], lastTrx, hasRows)
    ensures Tracks(if hasRows then sent + [Marker(coords)] else sent, atoms + [EndAt(coords)], [], Some(coords), false)
  {
    SentOne(atoms, EndAt(coords));
    assert sent == Sent(atoms, false);
    assert sent + [] == sent && sent + [Marker(coords)] + [] == sent + [Marker(coords)];
  }

  class GoMySQLReader {
    const useGTIDs: bool
    var current: Coords
    var lastTrx: Option<Coords>
    var transactionHasRows: bool
    var sent: seq<Entry<Coords, RowChange>>
    /** How many sends still succeed before the context is cancelled. */
    var sends: nat
    /** What was read completely, and what was sent of the rows event that was cut short. */
    ghost var atoms: seq<Atom<Coords, RowChange>>
    ghost var partial: seq<Entry<Coords, RowChange>>

    ghost predicate Valid()
      reads this
    {
      && Tracks(sent, atoms, partial, lastTrx, transactionHasRows)
      && (useGTIDs <==> current.Gtids?)
      && (lastTrx.Some? ==> (useGTIDs <==> lastTrx.value.Gtids?))
    }

    /** Not cut short. */
    ghost predicate Whole()
      reads this
    {
      Valid() && partial == []
    }

    constructor (coords: Coords, sends: nat)
      ensures Whole() && atoms == [] && current == coords && lastTrx == None && useGTIDs == coords.Gtids?
    {
      useGTIDs, current, lastTrx, transactionHasRows := coords.Gtids?, coords, None, false;
      sent, this.sends, atoms, partial := [], sends, [], [];
    }

    method Send(e: Entry<Coords, RowChange>) returns (ok: bool)
      modifies this`sent, this`sends
      ensures ok <==> old(sends) > 0
      ensures sent == if ok then old(sent) + [e] else old(sent)
      ensures !ok ==> sends == 0
    {
      ok := sends > 0;
      if ok {
        sent, sends := sent + [e], sends - 1;
      }
    }

    /** Sends the rows of an event one by one, as far as it gets. */
    method SendRows(dml: Tag, rows: seq<RowImage>) returns (ok: bool, ghost part: seq<Entry<Coords, RowChange>>)
      requires !dml.NotDML? && (dml.UpdateDML? ==> |rows| % 2 == 0)
      modifies this`sent, this`sends, this`transactionHasRows
      ensures sent == old(sent) + part && transactionHasRows == (old(transactionHasRows) || part != [])
      ensures part <= RowEntries(current, ChangesUpTo(dml, rows, |rows|))
      ensures ok ==> part == RowEntries(current, ChangesUpTo(dml, rows, |rows|))
      ensures !ok ==> sends == 0
    {
      part := [];
      for i := 0 to |rows|
        invariant part == RowEntries(current, ChangesUpTo(dml, rows, i))
        invariant sent == old(sent) + part && transactionHasRows == (old(transactionHasRows) || part != [])
      {
        if dml.UpdateDML? && i % 2 == 1 {
          continue;
        }
        var entry := RowEntry(current, ChangeAt(dml, rows, i));
        ok := Send(entry);
        if !ok {
          PartOfAll(dml, rows, i);
          return;
        }
        part := part + [entry];
        transactionHasRows := true;
      }
      ok := true;
    }

    method HandleRowsEvent(dml: Tag, rows: seq<RowImage>) returns (ok: bool)
      requires Whole() && (dml.UpdateDML? ==> |rows| % 2 == 0)
      modifies this`sent, this`sends, this`transactionHasRows, this`atoms, this`partial
      ensures Valid() && lastTrx == old(lastTrx) && old(sent) <= sent
      ensures ok ==> Whole() && atoms == old(atoms) + [RowsAt(current, ChangesUpTo(dml, rows, |rows|))]
      ensures !ok ==> atoms == old(atoms) && partial <= RowEntries(current, ChangesUpTo(dml, rows, |rows|))
      ensures !ok ==> Within(sent, atoms + [RowsAt(current, ChangesUpTo(dml, rows, |rows|))])
      ensures dml.NotDML? ==> !ok && sent == old(sent)
      ensures !ok ==> dml.NotDML? || sends == 0
      ensures ok ==> exists changes :: AreChangesOf(changes, dml, rows) &&
                                       sent == old(sent) + RowEntries(current, changes)
    {
      if dml.NotDML? {
        WithinRows(atoms, current, ChangesUpTo(dml, rows, |rows|), []);
        return false;
      }
      ghost var part;
      ok, part := SendRows(dml, rows);
      TracksPart(old(sent), atoms, lastTrx, old(transactionHasRows), part);
      if !ok {
        WithinRows(atoms, current, ChangesUpTo(dml, rows, |rows|), part);
        partial := part;
        return;
      }
      ChangesAre(dml, rows);
      TracksRows(old(sent), atoms, lastTrx, old(transactionHasRows), current, ChangesUpTo(dml, rows, |rows|));
      atoms := atoms + [RowsAt(current, ChangesUpTo(dml, rows, |rows|))];
    }

    lemma PartOfAll(dml: Tag, rows: seq<RowImage>, i: nat)
      requires i <= |rows| && (dml.UpdateDML? ==> |rows| % 2 == 0)
      ensures RowEntries(current, ChangesUpTo(dml, rows, i)) <= RowEntries(current, ChangesUpTo(dml, rows, |rows|))
      decreases |rows| - i
    {
      if i < |rows| {
        PartOfAll(dml, rows, i + 1);
      }
    }

    /** Sends the marker of a transaction that delivered rows. */
    method SendMarker(coords: Coords) returns (ok: bool)
      modifies this`sent, this`sends, this`transactionHasRows
      ensures ok ==> !transactionHasRows
      ensures ok ==> sent == if old(transactionHasRows) then old(sent) + [Marker(coords)] else old(sent)
      ensures !ok ==> sent == old(sent) && transactionHasRows == old(transactionHasRows) && sends == 0
    {
      ok := true;
      if transactionHasRows {
        ok := Send(Marker(coords));
        if ok {
          transactionHasRows := false;
        }
      }
    }

    /** LastTrxCoords moves only after the rows and their marker were sent. */
    method CompleteTransaction(executed: Option<set<Gtid>>) returns (ok: bool)
      requires Whole()
      modifies this`sent, this`sends, this`transactionHasRows, this`lastTrx, this`atoms
      ensures Whole() && old(sent) <= sent
      ensures ok ==> atoms == old(atoms) + [EndAt(EndCoords(useGTIDs, current, executed))]
      ensures !ok ==> atoms == old(atoms) && sent == old(sent) && lastTrx == old(lastTrx) && sends == 0
    {
      var coords := current;
      if useGTIDs && executed.Some? {
        coords := Gtids(executed.value);
      }
      ok := SendMarker(coords);
      if !ok {
        return;
      }
      TracksEnd(old(sent), atoms, lastTrx, old(transactionHasRows), coords);
      lastTrx := Some(coords);
      atoms := atoms + [EndAt(coords)];
    }

    /** A rows event or the end of a transaction; anything else sends nothing. */
    method HandleOne(body: Body) returns (ok: bool)
      requires Whole() && WellPaired(body)
      modifies this`sent, this`sends, this`transactionHasRows, this`lastTrx, this`atoms, this`partial
      ensures Valid() && old(sent) <= sent
      ensures ok ==> Whole() && atoms == old(atoms) + AtomsOfOne(useGTIDs, current, body)
      ensures !ok ==> atoms == old(atoms) && lastTrx == old(lastTrx)
      ensures !ok ==> Within(sent, old(atoms) + AtomsOfOne(useGTIDs, current, body))
      ensures !ok ==> (body.Rows? && body.dml.NotDML?) || sends == 0
    {
      match body {
        case Rows(dml, rows) =>
          ok := HandleRowsEvent(dml, rows);
        case Xid(executed) =>
          ok := CompleteTransaction(executed);
          WithinMore(old(sent), old(atoms), AtomsOfOne(useGTIDs, current, body));
        case _ =>
          ok := true;
      }
    }

    /** The nested events of a compressed transaction, all at the coordinates of the payload. */
    method HandlePayload(nested: seq<Body>) returns (ok: bool, ghost read: seq<Atom<Coords, RowChange>>)
      requires Whole() && forall i | 0 <= i < |nested| :: WellPaired(nested[i])
      modifies this`sent, this`sends, this`transactionHasRows, this`lastTrx, this`atoms, this`partial
      ensures Valid() && (ok ==> Whole()) && old(sent) <= sent && atoms == old(atoms) + read
      ensures ok ==> read == AtomsUpTo(useGTIDs, current, nested, |nested|)
      ensures !ok ==> Within(sent, old(atoms) + AtomsUpTo(useGTIDs, current, nested, |nested|))
      ensures !ok ==> Unreadable(Payload(nested)) || sends == 0
    {
      read := [];
      assert atoms == old(atoms) + read;
      for i := 0 to |nested|
        invariant Whole() && old(sent) <= sent && atoms == old(atoms) + read
        invariant read == AtomsUpTo(useGTIDs, current, nested, i)
      {
        ok := HandleOne(nested[i]);
        if !ok {
          WithinNested(sent, old(atoms), read, useGTIDs, current, nested, i);
          return;
        }
        ghost var one := AtomsOfOne(useGTIDs, current, nested[i]);
        Associate(old(atoms), read, one);
        read := read + one;
      }
      ok := true;
    }

    /** Moves the coordinates to an event of a file; fails when its end does not fit in four bytes. */
    method MoveTo(ev: LogEvent) returns (ok: bool)
      requires Whole()
      modifies this`current
      ensures Whole()
      ensures useGTIDs ==> ok && current == old(current)
      ensures !useGTIDs ==>
                var was := old(current).file;
                && current == File(FileCoordinates(was.logFile, ev.logPos, ev.size))
                && (ok <==> was.logFile == "" || was.logPos + ev.size <= 0xFFFF_FFFF)
    {
      ok := true;
      if !useGTIDs {
        var previous := current.file;
        current := File(FileCoordinates(previous.logFile, ev.logPos, ev.size));
        if IsLogPosOverflowBeyond4Bytes(current.file, previous) {
          return false;
        }
      }
    }

    ghost function Place(): Cursor
      reads this
    {
      Cursor(current, lastTrx)
    }

    /** One event of the log; it fails only when it is cancelled, unreadable, or too far into its file. */
    method HandleEvent(ev: LogEvent) returns (ok: bool)
      requires Whole() && WellPaired(ev.body)
      modifies this
      ensures Valid() && (ok ==> Whole()) && old(sent) <= sent
      ensures ok ==> current == Moved(old(Place()), ev) && atoms == old(atoms) + AtomsOf(useGTIDs, current, ev.body)
      ensures !ok ==> Within(sent, old(atoms) + AtomsOf(useGTIDs, Moved(old(Place()), ev), ev.body))
      ensures !ok ==> sends == 0 || Unreadable(ev.body) || Beyond(old(current), ev)
    {
      WithinMore(sent, atoms, AtomsOf(useGTIDs, Moved(Place(), ev), ev.body));
      ok := MoveTo(ev);
      if !ok {
        return;
      }
      match ev.body {
        case GtidNext(next) =>
          if useGTIDs {
            if lastTrx.Some? {
              current := lastTrx.value;
            }
            current := Gtids(current.gtids + {next});
          }
        case Rotate(nextFile) =>
          if !useGTIDs {
            current := File(current.file.(logFile := nextFile));
          }
        case Payload(nested) =>
          ghost var read;
          ok, read := HandlePayload(nested);
        case body =>
          ok := HandleOne(body);
      }
    }

    /**
     The reader's loop, until an event fails. What was sent is then what the first
     `n` events amount to, and no more than a first part of the next one.
     */
    method StreamEvents(events: seq<LogEvent>) returns (ok: bool, n: nat)
      requires Whole() && atoms == [] && AllPaired(events)
      modifies this
      ensures Valid() && lastTrx == LastEnd(atoms) && n <= |events| && (ok <==> n == |events|)
      ensures ok ==> Whole() && Place() == PlaceAfter(old(Place()), events, n)
      ensures ok ==> atoms == LogAtoms(old(Place()), events, n)
      ensures ok ==> sent == Sent(LogAtoms(old(Place()), events, n), false)
      ensures !ok ==> Sent(LogAtoms(old(Place()), events, n), false) <= sent &&
                      sent <= Sent(LogAtoms(old(Place()), events, n + 1), false)
      ensures !ok ==> sends == 0 || Unreadable(events[n].body) ||
                      Beyond(PlaceAfter(old(Place()), events, n).current, events[n])
    {
      n := 0;
      ghost var start := Place();
      while n < |events|
        invariant Whole() && n <= |events|
        invariant atoms == LogAtoms(start, events, n) && Place() == PlaceAfter(start, events, n)
      {
        ok := HandleEvent(events[n]);
        if !ok {
          return;
        }
        OneMore(start, events, n, Place(), atoms);
        n := n + 1;
      }
      ok := true;
    }
  }
}
