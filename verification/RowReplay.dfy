/**
 The statements built for an event, performed on the ghost, replay the event.
 */
module RowReplay {
  import opened Wrappers
  import opened Columns
  import opened Dml
  import opened Projection
  import opened RowEvents
  import Replay

  // ----- performing built statements

  ghost function StatementColumns(s: Schema, statement: Statement): seq<Column> {
    match statement
    case DeleteWhere(_) => s.key.columns
    case InsertIgnoreInto(_) => s.shared.columns
    case UpdateSet(_, _) => s.shared.columns + s.key.columns
  }

  ghost function Read(columns: seq<Column>, domains: Domains, args: seq<Datum>): (values: seq<Stored>)
    requires |columns| == |args|
    ensures |values| == |args|
  {
    seq(|args|, i requires 0 <= i < |args| =>
      var name := columns[i].name;
      if name in domains && Taken(domains[name], args[i]).Some? then Taken(domains[name], args[i]).value else Nothing)
  }

  lemma ReadIsTaken(columns: seq<Column>, domains: Domains, args: seq<Datum>, values: seq<Stored>)
    requires Takes(columns, domains, args, values)
    ensures Read(columns, domains, args) == values
  {
  }

  /** A statement with the wrong number of arguments, or inserting no key, has no effect. */
  ghost function Perform(s: Schema, domains: Domains, g: Table, b: Built): Table {
    var columns, key := StatementColumns(s, b.statement), Names(s.key.columns);
    if |columns| != |b.args| || |b.args| != Slots(b.statement) then g
    else
      var values := Read(columns, domains, b.args);
      if b.statement.InsertIgnoreInto? && !HasNames(Bind(b.statement.into, values), key) then g
      else Execute(g, key, b.statement, values)
  }

  ghost function PerformAll(s: Schema, domains: Domains, g: Table, results: seq<Result<Built>>): Table
    decreases |results|
  {
    if results == [] then g
    else PerformAll(s, domains, if results[0].Ok? then Perform(s, domains, g, results[0].value) else g, results[1..])
  }

  lemma {:induction false} PerformAppend(s: Schema, domains: Domains, g: Table, a: seq<Result<Built>>,
                                         b: seq<Result<Built>>)
    ensures PerformAll(s, domains, g, a + b) == PerformAll(s, domains, PerformAll(s, domains, g, a), b)
    decreases |a|
  {
    if a == [] {
      assert a + b == b;
    } else {
      assert (a + b)[0] == a[0] && (a + b)[1..] == a[1..] + b;
      PerformAppend(s, domains, if a[0].Ok? then Perform(s, domains, g, a[0].value) else g, a[1..], b);
    }
  }

  lemma PerformOne(s: Schema, domains: Domains, g: Table, b: Built)
    ensures PerformAll(s, domains, g, [Ok(b)]) == Perform(s, domains, g, b)
  {
    assert [Ok(b)][1..] == [];
  }

  // ----- events of rows

  /** What happened to the original: the row before, the row after. */
  datatype Change = Change(dml: Tag, before: Row, after: Row)

  ghost predicate IsChange(s: Schema, domains: Domains, c: Change) {
    && Sound(s, domains) && !c.dml.NotDML?
    && (!c.dml.InsertDML? ==> IsRow(s, domains, c.before))
    && (!c.dml.DeleteDML? ==> IsRow(s, domains, c.after))
  }

  /** The event's values are those logged for the change; an insert has no old ones to read, a delete no new ones. */
  ghost predicate Logs(s: Schema, domains: Domains, c: Change, where: seq<Datum>, values: seq<Datum>)
    requires IsChange(s, domains, c)
  {
    && (!c.dml.InsertDML? ==> where == LoggedRow(s, domains, c.before))
    && (!c.dml.DeleteDML? ==> values == LoggedRow(s, domains, c.after))
  }

  ghost function EventOf(s: Schema, domains: Domains, c: Change): Replay.Event<seq<Stored>, Row>
    requires IsChange(s, domains, c)
  {
    if c.dml.InsertDML? then
      ProjectedKey(s, domains, c.after);
      Replay.Insert(KeyFor(s, c.after), Projected(s, c.after))
    else if c.dml.DeleteDML? then
      ProjectedKey(s, domains, c.before);
      Replay.Delete(KeyFor(s, c.before))
    else
      ProjectedKey(s, domains, c.before);
      ProjectedKey(s, domains, c.after);
      Replay.Update(KeyFor(s, c.before), KeyFor(s, c.after), Projected(s, c.after))
  }

  lemma PerformDelete(s: Schema, domains: Domains, g: Table, row: Row)
    requires Sound(s, domains) && IsGhost(s, g) && IsRow(s, domains, row)
    ensures HasNames(row, Names(s.key.columns))
    ensures DeleteQuery(s, LoggedRow(s, domains, row)).Ok?
    ensures Perform(s, domains, g, DeleteQuery(s, LoggedRow(s, domains, row)).value) == g - {KeyFor(s, row)}
  {
    BoundArgsAreTrue(s, domains, s.key.columns, row);
    ReadIsTaken(s.key.columns, domains, Bound(s.key.columns, s.table, LoggedRow(s, domains, row)), KeyFor(s, row));
    DeleteDoes(s, g, row);
  }

  lemma PerformInsert(s: Schema, domains: Domains, g: Table, row: Row)
    requires Sound(s, domains) && IsRow(s, domains, row)
    ensures HasNames(row, Names(s.key.columns)) && HasNames(row, Names(s.shared.columns))
    ensures InsertQuery(s, LoggedRow(s, domains, row)).Ok?
    ensures Perform(s, domains, g, InsertQuery(s, LoggedRow(s, domains, row)).value) ==
            Replay.InsertIgnore(g, KeyFor(s, row), Projected(s, row))
  {
    BoundArgsAreTrue(s, domains, s.shared.columns, row);
    ReadIsTaken(s.shared.columns, domains, Bound(s.shared.columns, s.table, LoggedRow(s, domains, row)),
                ValuesOf(s.shared.columns, row));
    InsertDoes(s, domains, g, row);
  }

  lemma TakesBoth(a: seq<Column>, b: seq<Column>, domains: Domains, x: seq<Datum>, y: seq<Datum>, v: seq<Stored>,
                  w: seq<Stored>)
    requires Takes(a, domains, x, v) && Takes(b, domains, y, w)
    ensures Takes(a + b, domains, x + y, v + w)
  {
  }

  lemma PerformUpdate(s: Schema, domains: Domains, g: Table, before: Row, after: Row)
    requires Sound(s, domains) && IsGhost(s, g) && IsRow(s, domains, before) && IsRow(s, domains, after)
    ensures HasNames(before, Names(s.key.columns)) && HasNames(after, Names(s.shared.columns))
    ensures UpdateQuery(s, LoggedRow(s, domains, after), LoggedRow(s, domains, before)).Ok?
    ensures Perform(s, domains, g, UpdateQuery(s, LoggedRow(s, domains, after), LoggedRow(s, domains, before)).value) ==
            if KeyFor(s, before) in g then g[KeyFor(s, before) := Projected(s, after)] else g
  {
    var x := Bound(s.shared.columns, s.table, LoggedRow(s, domains, after));
    var y := Bound(s.key.columns, s.table, LoggedRow(s, domains, before));
    BoundArgsAreTrue(s, domains, s.shared.columns, after);
    BoundArgsAreTrue(s, domains, s.key.columns, before);
    var v, w := ValuesOf(s.shared.columns, after), KeyFor(s, before);
    TakesBoth(s.shared.columns, s.key.columns, domains, x, y, v, w);
    ReadIsTaken(s.shared.columns + s.key.columns, domains, x + y, v + w);
    UpdateDoes(s, domains, g, before, after);
  }

  /** Whether an update moves a key shows in the logged values. */
  lemma ModifiesKeyIsTrue(s: Schema, domains: Domains, before: Row, after: Row)
    requires Sound(s, domains) && IsRow(s, domains, before) && IsRow(s, domains, after)
    ensures HasNames(before, Names(s.key.columns)) && HasNames(after, Names(s.key.columns))
    ensures ModifiesKey(s, LoggedRow(s, domains, before), LoggedRow(s, domains, after)) <==>
            KeyFor(s, before) != KeyFor(s, after)
  {
    var where, values := LoggedRow(s, domains, before), LoggedRow(s, domains, after);
    var k, k' := KeyFor(s, before), KeyFor(s, after);
    forall i | 0 <= i < |s.key.columns| ensures DiffersAt(s, i, where, values) <==> k[i] != k'[i] {
      var c := s.key.columns[i];
      if !DiffersAt(s, i, where, values) {
        LoggedIsInjective(c, domains[c.name], before[c.name], after[c.name]);
      }
    }
    if k != k' {
      var i :| 0 <= i < |k| && k[i] != k'[i];
      assert DiffersAt(s, i, where, values);
    }
  }

  /** Performing what is built for an event does to the ghost what replaying the event does. */
  lemma EventIsReplayed(s: Schema, domains: Domains, g: Table, c: Change, where: seq<Datum>, values: seq<Datum>)
    requires IsChange(s, domains, c) && IsGhost(s, g) && Logs(s, domains, c, where, values)
    ensures AllBuilt(Results(s, c.dml, where, values))
    ensures PerformAll(s, domains, g, Results(s, c.dml, where, values)) == Replay.Apply(g, EventOf(s, domains, c))
    ensures Moves(s, c.dml, where, values) <==> Replay.MovesKey(EventOf(s, domains, c))
  {
    match c.dml
    case DeleteDML =>
      PerformDelete(s, domains, g, c.before);
      PerformOne(s, domains, g, DeleteQuery(s, where).value);
    case InsertDML =>
      PerformInsert(s, domains, g, c.after);
      PerformOne(s, domains, g, InsertQuery(s, values).value);
    case UpdateDML =>
      UpdateIsReplayed(s, domains, g, c, where, values);
  }

  lemma MoveIsReplayed(s: Schema, domains: Domains, g: Table, before: Row, after: Row)
    requires Sound(s, domains) && IsGhost(s, g) && IsRow(s, domains, before) && IsRow(s, domains, after)
    ensures HasNames(before, Names(s.key.columns)) && HasNames(after, Names(s.key.columns)) &&
            HasNames(after, Names(s.shared.columns))
    ensures var delete := DeleteQuery(s, LoggedRow(s, domains, before));
            var insert := InsertQuery(s, LoggedRow(s, domains, after));
            && delete.Ok? && insert.Ok?
            && PerformAll(s, domains, g, [delete, insert]) ==
               Replay.InsertIgnore(g - {KeyFor(s, before)}, KeyFor(s, after), Projected(s, after))
  {
    var delete, insert := DeleteQuery(s, LoggedRow(s, domains, before)), InsertQuery(s, LoggedRow(s, domains, after));
    PerformDelete(s, domains, g, before);
    var g' := g - {KeyFor(s, before)};
    PerformInsert(s, domains, g', after);
    PerformOne(s, domains, g, delete.value);
    PerformOne(s, domains, g', insert.value);
    PerformAppend(s, domains, g, [delete], [insert]);
    assert [delete, insert] == [delete] + [insert];
  }

  lemma StayIsReplayed(s: Schema, domains: Domains, g: Table, before: Row, after: Row)
    requires Sound(s, domains) && IsGhost(s, g) && IsRow(s, domains, before) && IsRow(s, domains, after)
    ensures HasNames(before, Names(s.key.columns)) && HasNames(after, Names(s.shared.columns))
    ensures var update := UpdateQuery(s, LoggedRow(s, domains, after), LoggedRow(s, domains, before));
            && update.Ok?
            && PerformAll(s, domains, g, [update]) ==
               if KeyFor(s, before) in g then g[KeyFor(s, before) := Projected(s, after)] else g
  {
    PerformUpdate(s, domains, g, before, after);
    PerformOne(s, domains, g, UpdateQuery(s, LoggedRow(s, domains, after), LoggedRow(s, domains, before)).value);
  }

  lemma UpdateIsReplayed(s: Schema, domains: Domains, g: Table, c: Change, where: seq<Datum>, values: seq<Datum>)
    requires IsChange(s, domains, c) && IsGhost(s, g) && Logs(s, domains, c, where, values) && c.dml.UpdateDML?
    ensures AllBuilt(Results(s, c.dml, where, values))
    ensures PerformAll(s, domains, g, Results(s, c.dml, where, values)) == Replay.Apply(g, EventOf(s, domains, c))
    ensures Moves(s, c.dml, where, values) <==> Replay.MovesKey(EventOf(s, domains, c))
  {
    ModifiesKeyIsTrue(s, domains, c.before, c.after);
    UpdateResults(s, where, values);
    if ModifiesKey(s, where, values) {
      MoveIsReplayed(s, domains, g, c.before, c.after);
    } else {
      StayIsReplayed(s, domains, g, c.before, c.after);
    }
  }

  lemma UpdateResults(s: Schema, where: seq<Datum>, values: seq<Datum>)
    requires InReach(s.table, where) && InReach(s.table, values)
    ensures Results(s, UpdateDML, where, values) ==
            if ModifiesKey(s, where, values) then [DeleteQuery(s, where), InsertQuery(s, values)]
            else [UpdateQuery(s, values, where)]
    ensures Moves(s, UpdateDML, where, values) <==> ModifiesKey(s, where, values)
  {
  }

  /** On a second build, as on a retry, an event that moves a key only inserts. */
  lemma RebuiltEventIsReplayed(s: Schema, domains: Domains, g: Table, c: Change, where: seq<Datum>, values: seq<Datum>)
    requires IsChange(s, domains, c) && IsGhost(s, g) && Logs(s, domains, c, where, values)
    ensures PerformAll(s, domains, g, Results(s, TagAfter(s, c.dml, where, values), where, values)) ==
            Replay.ApplyBuilt(g, EventOf(s, domains, c), true)
  {
    EventIsReplayed(s, domains, g, c, where, values);
    if Moves(s, c.dml, where, values) {
      PerformInsert(s, domains, g, c.after);
      PerformOne(s, domains, g, InsertQuery(s, values).value);
    }
  }

  lemma GhostWith(s: Schema, g: Table, k: seq<Stored>, row: Row)
    requires IsGhost(s, g) && HasNames(row, Names(s.key.columns)) && KeyOf(row, Names(s.key.columns)) == k
    requires row.Keys == set name | name in s.mapped
    ensures IsGhost(s, g[k := row]) && IsGhost(s, Replay.InsertIgnore(g, k, row))
  {
  }

  lemma GhostWithout(s: Schema, g: Table, k: seq<Stored>)
    requires IsGhost(s, g)
    ensures IsGhost(s, g - {k})
  {
  }

  /** Replaying an event keeps the ghost's rows under their keys. */
  lemma GhostKept(s: Schema, domains: Domains, g: Table, c: Change)
    requires IsChange(s, domains, c) && IsGhost(s, g)
    ensures IsGhost(s, Replay.Apply(g, EventOf(s, domains, c)))
  {
    match c.dml
    case InsertDML =>
      ProjectedKey(s, domains, c.after);
      GhostWith(s, g, KeyFor(s, c.after), Projected(s, c.after));
    case DeleteDML =>
      ProjectedKey(s, domains, c.before);
      GhostWithout(s, g, KeyFor(s, c.before));
    case UpdateDML =>
      ProjectedKey(s, domains, c.before);
      ProjectedKey(s, domains, c.after);
      GhostWith(s, g, KeyFor(s, c.after), Projected(s, c.after));
      GhostWithout(s, g, KeyFor(s, c.before));
      GhostWith(s, g - {KeyFor(s, c.before)}, KeyFor(s, c.after), Projected(s, c.after));
  }

  // ----- batches

  ghost predicate AreChanges(s: Schema, domains: Domains, changes: seq<Change>) {
    forall i | 0 <= i < |changes| :: IsChange(s, domains, changes[i])
  }

  /** The events hold what was logged of the changes. */
  ghost predicate LogAll(s: Schema, domains: Domains, changes: seq<Change>, events: seq<DMLEvent>)
    requires AreChanges(s, domains, changes)
  {
    && |changes| == |events|
    && forall i | 0 <= i < |changes| :: Logs(s, domains, changes[i], events[i].where, events[i].values)
  }

  ghost function ReplayAll(s: Schema, domains: Domains, g: Table, changes: seq<Change>): Table
    requires AreChanges(s, domains, changes)
  {
    if changes == [] then g
    else
      var n := |changes| - 1;
      Replay.Apply(ReplayAll(s, domains, g, changes[..n]), EventOf(s, domains, changes[n]))
  }

  function TagsOf(changes: seq<Change>): (tags: seq<Tag>)
    ensures |tags| == |changes| && forall i | 0 <= i < |tags| :: tags[i] == changes[i].dml
  {
    seq(|changes|, i requires 0 <= i < |changes| => changes[i].dml)
  }

  /** The statements of a batch, performed in order, replay its changes in order. */
  lemma {:induction false} BatchIsReplayed(s: Schema, domains: Domains, g: Table, changes: seq<Change>,
                                           events: seq<DMLEvent>)
    requires AreChanges(s, domains, changes) && LogAll(s, domains, changes, events) &&
             Reachable(s, events, TagsOf(changes)) &&
             IsGhost(s, g)
    ensures AllBuilt(BatchResults(s, events, TagsOf(changes)))
    ensures PerformAll(s, domains, g, BatchResults(s, events, TagsOf(changes))) == ReplayAll(s, domains, g, changes)
    ensures IsGhost(s, ReplayAll(s, domains, g, changes))
    decreases |changes|
  {
    if changes != [] {
      var n := |changes| - 1;
      var c, e := changes[n], events[n];
      var earlier, last := BatchResults(s, events[..n], TagsOf(changes[..n])), Results(s, c.dml, e.where, e.values);
      assert TagsOf(changes)[..n] == TagsOf(changes[..n]);
      BatchIsReplayed(s, domains, g, changes[..n], events[..n]);
      var g' := ReplayAll(s, domains, g, changes[..n]);
      EventIsReplayed(s, domains, g', c, e.where, e.values);
      GhostKept(s, domains, g', c);
      PerformAppend(s, domains, g, earlier, last);
      FewerBuilt(earlier, last);
    }
  }
}
