/**
 Row events as the applier turns them into statements, in place, and why the
 statements replay the events.
 */
module RowEvents {
  import opened Wrappers
  import opened Columns
  import opened Dml
  import opened Projection
  import Replay

  // ----- rows of the original, and what is logged of them

  type Domains = map<string, Domain>

  /** The list consists of columns of the table, described truly. */
  ghost predicate Described(columns: seq<Column>, table: ColumnList, domains: Domains) {
    forall i | 0 <= i < |columns| ::
      columns[i].name in table.ordinals && columns[i].name in domains && Describes(columns[i], domains[columns[i].name])
  }

  function SharingOf(s: Schema): Sharing {
    Sharing(Names(s.shared.columns), s.mapped)
  }

  /** A schema as the inspector leaves it: distinct names, and a stored, shared, unrenamed key. */
  ghost predicate Sound(s: Schema, domains: Domains) {
    && s.table.columns != [] && Indexes(s.table.columns, s.table.ordinals) && DistinctNames(Names(s.table.columns))
    && (forall name | name in s.table.ordinals :: name in domains)
    && Described(s.shared.columns, s.table, domains) && Described(s.key.columns, s.table, domains)
    && KeepsNames(SharingOf(s), Names(s.key.columns))
  }

  /** A row of the original. */
  ghost predicate IsRow(s: Schema, domains: Domains, row: Row) {
    forall name | name in s.table.ordinals :: name in row && name in domains && Holds(domains[name], row[name])
  }

  ghost function LoggedRow(s: Schema, domains: Domains, row: Row): (args: seq<Datum>)
    requires Sound(s, domains) && IsRow(s, domains, row)
    ensures |args| == |s.table.columns| && InReach(s.table, args)
    ensures forall name | name in s.table.ordinals :: args[s.table.ordinals[name]] == Logged(domains[name], row[name])
  {
    seq(|s.table.columns|, i requires 0 <= i < |s.table.columns| =>
      var name := s.table.columns[i].name; Logged(domains[name], row[name]))
  }

  /** The row's values in the given columns. */
  ghost function ValuesOf(columns: seq<Column>, row: Row): (values: seq<Stored>)
    requires HasNames(row, Names(columns))
    ensures |values| == |columns| && forall i | 0 <= i < |columns| :: values[i] == row[columns[i].name]
  {
    KeyOf(row, Names(columns))
  }

  /** The row as the ghost has it. */
  ghost function Projected(s: Schema, row: Row): Row
    requires |s.mapped| == |s.shared.columns| && HasNames(row, Names(s.shared.columns))
  {
    ProjectedRow(SharingOf(s), row)
  }

  /** The values the server takes the arguments to be. */
  ghost predicate Takes(columns: seq<Column>, domains: Domains, args: seq<Datum>, values: seq<Stored>) {
    && |columns| == |args| == |values|
    && forall i | 0 <= i < |columns| ::
         columns[i].name in domains && Taken(domains[columns[i].name], args[i]) == Some(values[i])
  }

  /** Every argument a builder binds is the true value of the column it stands for. */
  lemma BoundArgsAreTrue(s: Schema, domains: Domains, columns: seq<Column>, row: Row)
    requires Sound(s, domains) && IsRow(s, domains, row) && Described(columns, s.table, domains)
    ensures HasNames(row, Names(columns))
    ensures Takes(columns, domains, Bound(columns, s.table, LoggedRow(s, domains, row)), ValuesOf(columns, row))
  {
    var args := LoggedRow(s, domains, row);
    forall i | 0 <= i < |columns|
      ensures columns[i].name in row &&
              Taken(domains[columns[i].name], Bound(columns, s.table, args)[i]) == Some(row[columns[i].name])
    {
      var name := columns[i].name;
      ConversionRestores(columns[i], domains[name], row[name]);
    }
  }

  // ----- what the statements do to the ghost

  /** Each ghost row is stored under its key and has the mapped columns. */
  ghost predicate IsGhost(s: Schema, g: Table) {
    forall k | k in g ::
      && HasNames(g[k], Names(s.key.columns)) && KeyOf(g[k], Names(s.key.columns)) == k
      && g[k].Keys == set name | name in s.mapped
  }

  ghost function KeyFor(s: Schema, row: Row): seq<Stored>
    requires HasNames(row, Names(s.key.columns))
  {
    KeyOf(row, Names(s.key.columns))
  }

  lemma ProjectedKey(s: Schema, domains: Domains, row: Row)
    requires Sound(s, domains) && IsRow(s, domains, row)
    ensures HasNames(row, Names(s.shared.columns)) && HasNames(row, Names(s.key.columns))
    ensures var p, key := Projected(s, row), Names(s.key.columns);
            HasNames(p, key) && KeyOf(p, key) == KeyFor(s, row) && p.Keys == set name | name in s.mapped
  {
    assert HasNames(row, Names(s.shared.columns));
    ProjectedRowKey(SharingOf(s), Names(s.key.columns), row);
  }

  /** The built INSERT adds the projected row, unless its key is there. */
  lemma InsertDoes(s: Schema, domains: Domains, g: Table, row: Row)
    requires Sound(s, domains) && IsRow(s, domains, row)
    ensures HasNames(row, Names(s.shared.columns)) && HasNames(row, Names(s.key.columns))
    ensures HasNames(Bind(s.mapped, ValuesOf(s.shared.columns, row)), Names(s.key.columns))
    ensures Execute(g, Names(s.key.columns), InsertIgnoreInto(s.mapped), ValuesOf(s.shared.columns, row)) ==
            Replay.InsertIgnore(g, KeyFor(s, row), Projected(s, row))
  {
    ProjectedKey(s, domains, row);
  }

  lemma MatchesIsKey(s: Schema, g: Table, k: seq<Stored>, values: seq<Stored>)
    requires IsGhost(s, g) && k in g && |values| == |s.key.columns|
    ensures Matches(g[k], Names(s.key.columns), values) <==> k == values
  {
  }

  lemma DeleteRemoves(s: Schema, g: Table, k: seq<Stored>)
    requires IsGhost(s, g) && |k| == |s.key.columns|
    ensures Execute(g, Names(s.key.columns), DeleteWhere(Names(s.key.columns)), k) == g - {k}
  {
    forall x | x in g ensures Matches(g[x], Names(s.key.columns), k) <==> x == k {
      MatchesIsKey(s, g, x, k);
    }
  }

  /** The built DELETE removes the row with the event's old key. */
  lemma DeleteDoes(s: Schema, g: Table, row: Row)
    requires IsGhost(s, g) && HasNames(row, Names(s.key.columns))
    ensures Execute(g, Names(s.key.columns), DeleteWhere(Names(s.key.columns)), KeyFor(s, row)) == g - {KeyFor(s, row)}
  {
    DeleteRemoves(s, g, KeyFor(s, row));
  }

  lemma UpdateReplaces(s: Schema, g: Table, k: seq<Stored>, values: seq<Stored>)
    requires IsGhost(s, g) && |k| == |s.key.columns| && |values| == |s.mapped|
    requires Bind(s.mapped, values).Keys == set name | name in s.mapped
    ensures Execute(g, Names(s.key.columns), UpdateSet(s.mapped, Names(s.key.columns)), values + k) ==
            if k in g then g[k := Bind(s.mapped, values)] else g
  {
    assert (values + k)[..|s.mapped|] == values && (values + k)[|s.mapped|..] == k;
    forall x | x in g ensures UpdatedRow(s, g[x], k, values) == if x == k then Bind(s.mapped, values) else g[x] {
      UpdatedAt(s, g, x, k, values);
    }
  }

  ghost function UpdatedRow(s: Schema, row: Row, k: seq<Stored>, values: seq<Stored>): Row
    requires |k| == |s.key.columns| && |values| == |s.mapped|
  {
    if Matches(row, Names(s.key.columns), k) then row + Bind(s.mapped, values) else row
  }

  lemma UpdatedAt(s: Schema, g: Table, x: seq<Stored>, k: seq<Stored>, values: seq<Stored>)
    requires IsGhost(s, g) && x in g && |k| == |s.key.columns| && |values| == |s.mapped|
    requires Bind(s.mapped, values).Keys == set name | name in s.mapped
    ensures UpdatedRow(s, g[x], k, values) == if x == k then Bind(s.mapped, values) else g[x]
  {
    MatchesIsKey(s, g, x, k);
    assert g[x].Keys == Bind(s.mapped, values).Keys;
    assert g[x] + Bind(s.mapped, values) == Bind(s.mapped, values);
  }

  /** The built UPDATE replaces the row with the event's key, if it is there. */
  lemma UpdateDoes(s: Schema, domains: Domains, g: Table, before: Row, after: Row)
    requires Sound(s, domains) && IsGhost(s, g) && IsRow(s, domains, before) && IsRow(s, domains, after)
    ensures HasNames(before, Names(s.key.columns)) && HasNames(after, Names(s.shared.columns))
    ensures var k, p := KeyFor(s, before), Projected(s, after);
            Execute(g, Names(s.key.columns), UpdateSet(s.mapped, Names(s.key.columns)),
                    ValuesOf(s.shared.columns, after) + k) ==
            if k in g then g[k := p] else g
  {
    ProjectedKey(s, domains, before);
    ProjectedKey(s, domains, after);
    UpdateReplaces(s, g, KeyFor(s, before), ValuesOf(s.shared.columns, after));
  }

  // ----- the applier's in-place building

  datatype Tag = NotDML | InsertDML | UpdateDML | DeleteDML

  class DMLEvent {
    var dml: Tag
    const where: seq<Datum>
    const values: seq<Datum>

    constructor (dml: Tag, where: seq<Datum>, values: seq<Datum>)
      ensures this.dml == dml && this.where == where && this.values == values
    {
      this.dml, this.where, this.values := dml, where, values;
    }
  }

  predicate DiffersAt(s: Schema, i: nat, where: seq<Datum>, values: seq<Datum>)
    requires i < |s.key.columns| && InReach(s.table, where) && InReach(s.table, values)
  {
    var n := Ordinal(s.table, s.key.columns[i].name);
    where[n] != values[n]
  }

  predicate ModifiesKey(s: Schema, where: seq<Datum>, values: seq<Datum>)
    requires InReach(s.table, where) && InReach(s.table, values)
  {
    exists i :: 0 <= i < |s.key.columns| && DiffersAt(s, i, where, values)
  }

  method UpdateModifiesUniqueKeyColumns(s: Schema, where: seq<Datum>, values: seq<Datum>) returns (modified: bool)
    requires InReach(s.table, where) && InReach(s.table, values)
    ensures modified <==> ModifiesKey(s, where, values)
  {
    for i := 0 to |s.key.columns|
      invariant forall j | 0 <= j < i :: !DiffersAt(s, j, where, values)
    {
      var n := Ordinal(s.table, s.key.columns[i].name);
      if where[n] != values[n] {
        assert DiffersAt(s, i, where, values);
        return true;
      }
    }
    return false;
  }

  /** The event has the row images that its kind reads. */
  predicate Usable(s: Schema, dml: Tag, where: seq<Datum>, values: seq<Datum>) {
    && (dml.UpdateDML? || dml.DeleteDML? ==> InReach(s.table, where))
    && (dml.UpdateDML? || dml.InsertDML? ==> InReach(s.table, values))
  }

  function Results(s: Schema, dml: Tag, where: seq<Datum>, values: seq<Datum>): seq<Result<Built>>
    requires Usable(s, dml, where, values)
  {
    match dml
    case NotDML => [Err("unknown dml event type")]
    case DeleteDML => [DeleteQuery(s, where)]
    case InsertDML => [InsertQuery(s, values)]
    case UpdateDML =>
      if ModifiesKey(s, where, values) then [DeleteQuery(s, where), InsertQuery(s, values)]
      else [UpdateQuery(s, values, where)]
  }

  predicate Moves(s: Schema, dml: Tag, where: seq<Datum>, values: seq<Datum>)
    requires Usable(s, dml, where, values)
  {
    dml == UpdateDML && ModifiesKey(s, where, values)
  }

  /** Building an event that moves a key leaves it tagged as an insert. */
  function TagAfter(s: Schema, dml: Tag, where: seq<Datum>, values: seq<Datum>): Tag
    requires Usable(s, dml, where, values)
  {
    if Moves(s, dml, where, values) then InsertDML else dml
  }

  method BuildDMLEventQuery(s: Schema, e: DMLEvent) returns (results: seq<Result<Built>>)
    requires Usable(s, e.dml, e.where, e.values)
    modifies e`dml
    ensures results == Results(s, old(e.dml), e.where, e.values)
    ensures e.dml == TagAfter(s, old(e.dml), e.where, e.values)
    decreases e.dml == UpdateDML
  {
    match e.dml {
      case DeleteDML =>
        return [DeleteQuery(s, e.where)];
      case InsertDML =>
        return [InsertQuery(s, e.values)];
      case UpdateDML =>
        var modified := UpdateModifiesUniqueKeyColumns(s, e.where, e.values);
        if modified {
          e.dml := DeleteDML;
          results := BuildDMLEventQuery(s, e);
          e.dml := InsertDML;
          var more := BuildDMLEventQuery(s, e);
          results := results + more;
          return;
        }
        return [UpdateQuery(s, e.values, e.where)];
      case NotDML =>
    }
    return [Err("unknown dml event type")];
  }

  /** A second build gives the same statements if and only if the event does not move a key. */
  lemma SecondBuild(s: Schema, dml: Tag, where: seq<Datum>, values: seq<Datum>)
    requires Usable(s, dml, where, values)
    ensures Results(s, TagAfter(s, dml, where, values), where, values) == Results(s, dml, where, values) <==>
            !Moves(s, dml, where, values)
  {
  }

  // ----- the events of a batch

  /** Distinct events which, with the given tags, have the row images that they need. */
  ghost predicate Reachable(s: Schema, events: seq<DMLEvent>, tags: seq<Tag>) {
    && |tags| == |events|
    && (forall i | 0 <= i < |events| :: Usable(s, tags[i], events[i].where, events[i].values))
    && (forall i, j | 0 <= i < j < |events| :: events[i] != events[j])
  }

  /** The statements of a batch of events with the given tags, in order. */
  ghost function BatchResults(s: Schema, events: seq<DMLEvent>, tags: seq<Tag>): seq<Result<Built>>
    requires Reachable(s, events, tags)
  {
    if events == [] then []
    else
      var n := |events| - 1;
      BatchResults(s, events[..n], tags[..n]) + Results(s, tags[n], events[n].where, events[n].values)
  }

  ghost function Tags(events: seq<DMLEvent>): (tags: seq<Tag>)
    reads events
    ensures |tags| == |events| && forall i | 0 <= i < |events| :: tags[i] == events[i].dml
  {
    seq(|events|, i requires 0 <= i < |events| reads events => events[i].dml)
  }

  lemma BatchStep(s: Schema, events: seq<DMLEvent>, tags: seq<Tag>, n: nat)
    requires Reachable(s, events, tags) && n < |events|
    ensures BatchResults(s, events[..n + 1], tags[..n + 1]) ==
            BatchResults(s, events[..n], tags[..n]) + Results(s, tags[n], events[n].where, events[n].values)
  {
    assert events[..n + 1][..n] == events[..n] && tags[..n + 1][..n] == tags[..n];
  }

  predicate AllBuilt(results: seq<Result<Built>>) {
    forall i | 0 <= i < |results| :: results[i].Ok?
  }

  lemma FewerBuilt(a: seq<Result<Built>>, b: seq<Result<Built>>)
    ensures AllBuilt(a + b) <==> AllBuilt(a) && AllBuilt(b)
  {
    if AllBuilt(a + b) {
      forall i | 0 <= i < |a| ensures a[i].Ok? {
        assert a[i] == (a + b)[i];
      }
      forall i | 0 <= i < |b| ensures b[i].Ok? {
        assert b[i] == (a + b)[|a| + i];
      }
    }
  }

  lemma {:induction false} PrefixBuilt(s: Schema, events: seq<DMLEvent>, tags: seq<Tag>, n: nat)
    requires Reachable(s, events, tags) && n <= |events|
    requires AllBuilt(BatchResults(s, events, tags))
    ensures AllBuilt(BatchResults(s, events[..n], tags[..n]))
    decreases |events| - n
  {
    if n < |events| {
      PrefixBuilt(s, events, tags, n + 1);
      BatchStep(s, events, tags, n);
      FewerBuilt(BatchResults(s, events[..n], tags[..n]), Results(s, tags[n], events[n].where, events[n].values));
    } else {
      assert events[..n] == events && tags[..n] == tags;
    }
  }

  lemma NotBuilt(s: Schema, events: seq<DMLEvent>, tags: seq<Tag>, n: nat)
    requires Reachable(s, events, tags) && n < |events|
    requires !AllBuilt(Results(s, tags[n], events[n].where, events[n].values))
    ensures !AllBuilt(BatchResults(s, events, tags))
  {
    if AllBuilt(BatchResults(s, events, tags)) {
      PrefixBuilt(s, events, tags, n + 1);
      BatchStep(s, events, tags, n);
      FewerBuilt(BatchResults(s, events[..n], tags[..n]), Results(s, tags[n], events[n].where, events[n].values));
    }
  }

  method CheckBuilt(results: seq<Result<Built>>) returns (ok: bool)
    ensures ok <==> AllBuilt(results)
  {
    for i := 0 to |results|
      invariant forall j | 0 <= j < i :: results[j].Ok?
    {
      if results[i].Err? {
        return false;
      }
    }
    return true;
  }

  /** The first `n` events are tagged as a build leaves them, the others as before. */
  ghost predicate TaggedUpTo(s: Schema, events: seq<DMLEvent>, tags: seq<Tag>, n: nat)
    reads events
    requires Reachable(s, events, tags)
  {
    forall i | 0 <= i < |events| ::
      events[i].dml == if i < n then TagAfter(s, tags[i], events[i].where, events[i].values) else tags[i]
  }

  method BuildNext(s: Schema, events: seq<DMLEvent>, n: nat, ghost tags: seq<Tag>)
      returns (ok: bool, results: seq<Result<Built>>)
    requires Reachable(s, events, tags) && n < |events| && TaggedUpTo(s, events, tags, n)
    modifies events[n]
    ensures results == Results(s, tags[n], events[n].where, events[n].values)
    ensures TaggedUpTo(s, events, tags, n + 1)
    ensures ok <==> AllBuilt(results)
  {
    results := BuildDMLEventQuery(s, events[n]);
    ok := CheckBuilt(results);
  }

  /** Builds the statements of a batch in order; one that cannot be built fails the batch. */
  method BuildBatch(s: Schema, events: seq<DMLEvent>) returns (ok: bool, results: seq<Result<Built>>)
    requires Reachable(s, events, Tags(events))
    modifies events
    ensures ok <==> AllBuilt(BatchResults(s, events, old(Tags(events))))
    ensures ok ==> results == BatchResults(s, events, old(Tags(events)))
    ensures ok ==> TaggedUpTo(s, events, old(Tags(events)), |events|)
  {
    results := [];
    ghost var tags := Tags(events);
    for n := 0 to |events|
      invariant results == BatchResults(s, events[..n], tags[..n]) && AllBuilt(results)
      invariant TaggedUpTo(s, events, tags, n)
    {
      var built, more := BuildNext(s, events, n, tags);
      if !built {
        NotBuilt(s, events, tags, n);
        return false, results;
      }
      BatchStep(s, events, tags, n);
      FewerBuilt(results, more);
      results := results + more;
    }
    assert events[..|events|] == events && tags[..|events|] == tags;
    ok := true;
  }
}
