/**
 The statements built for row events, and what they do to the ghost table.
 */
module Dml {
  import opened Wrappers
  import opened Columns
  import opened Projection
  import Replay

  datatype Statement =
    | DeleteWhere(where: seq<string>)
    | InsertIgnoreInto(into: seq<string>)
    | UpdateSet(targets: seq<string>, where: seq<string>)

  datatype Built = Built(statement: Statement, args: seq<Datum>)

  /** The original's columns, those shared with the ghost and their names there, and the migration key. */
  datatype Schema = Schema(table: ColumnList, shared: ColumnList, mapped: seq<string>, key: ColumnList)

  // ----- preparing the statements

  predicate NamesIn(columns: seq<Column>, ordinals: map<string, nat>) {
    forall i | 0 <= i < |columns| :: columns[i].name in ordinals
  }

  method NewDMLDeleteQueryBuilder(s: Schema) returns (r: Result<Statement>)
    ensures r.Ok? <==> s.key.columns != [] && "" !in Names(s.key.columns)
    ensures r.Ok? ==> r.value == DeleteWhere(Names(s.key.columns))
  {
    if s.key.columns == [] {
      return Err("no key columns");
    }
    if "" in Names(s.key.columns) {
      return Err("empty column");
    }
    return Ok(DeleteWhere(Names(s.key.columns)));
  }

  method NewDMLInsertQueryBuilder(s: Schema) returns (r: Result<Statement>)
    ensures r.Ok? <==> NamesIn(s.shared.columns, s.table.ordinals) && s.shared.columns != []
    ensures r.Ok? ==> r.value == InsertIgnoreInto(s.mapped)
  {
    var subset := IsSubsetOf(s.shared, s.table);
    if !subset {
      return Err("shared columns not in table");
    }
    if s.shared.columns == [] {
      return Err("no shared columns");
    }
    return Ok(InsertIgnoreInto(s.mapped));
  }

  /** Key columns that are not virtual have to be shared. */
  ghost predicate KeyShared(s: Schema) {
    forall c | c in s.key.columns && !c.isVirtual :: c.name in s.shared.ordinals
  }

  lemma StoredKeyShared(s: Schema, stored: ColumnList)
    requires stored.columns == Filtered(s.key.columns, (c: Column) => !c.isVirtual)
    ensures KeyShared(s) <==> forall i | 0 <= i < |stored.columns| :: stored.columns[i].name in s.shared.ordinals
  {
    forall c ensures c in stored.columns <==> c in s.key.columns && !c.isVirtual {
      FilteredIn(s.key.columns, (c: Column) => !c.isVirtual, c);
    }
    if KeyShared(s) {
      forall i | 0 <= i < |stored.columns| ensures stored.columns[i].name in s.shared.ordinals {
        assert stored.columns[i] in stored.columns;
      }
    }
  }

  method NewDMLUpdateQueryBuilder(s: Schema) returns (r: Result<Statement>)
    ensures r.Ok? <==>
            && NamesIn(s.shared.columns, s.table.ordinals) && s.shared.columns != []
            && s.key.columns != [] && KeyShared(s) && s.mapped != [] && "" !in Names(s.key.columns)
    ensures r.Ok? ==> r.value == UpdateSet(s.mapped, Names(s.key.columns))
  {
    var subset := IsSubsetOf(s.shared, s.table);
    if !subset {
      return Err("shared columns not in table");
    }
    if s.shared.columns == [] {
      return Err("no shared columns");
    }
    if s.key.columns == [] {
      return Err("no key columns");
    }
    var stored := FilterBy(s.key, (c: Column) => !c.isVirtual);
    subset := IsSubsetOf(stored, s.shared);
    StoredKeyShared(s, stored);
    if !subset {
      return Err("key columns not shared");
    }
    if s.mapped == [] {
      return Err("no columns to set");
    }
    if "" in Names(s.key.columns) {
      return Err("empty column");
    }
    return Ok(UpdateSet(s.mapped, Names(s.key.columns)));
  }

  // ----- binding arguments

  /** A name without an ordinal reads as ordinal 0. */
  function Ordinal(list: ColumnList, name: string): nat {
    if name in list.ordinals then list.ordinals[name] else 0
  }

  predicate InReach(table: ColumnList, args: seq<Datum>) {
    args != [] && forall name | name in table.ordinals :: table.ordinals[name] < |args|
  }

  /** One argument per column, converted, from the column's place in the table. */
  function Bound(columns: seq<Column>, table: ColumnList, args: seq<Datum>): (r: seq<Datum>)
    requires InReach(table, args)
    ensures |r| == |columns|
  {
    seq(|columns|, i requires 0 <= i < |columns| => Converted(columns[i], args[Ordinal(table, columns[i].name)]))
  }

  method BindArgs(columns: seq<Column>, table: ColumnList, args: seq<Datum>) returns (r: seq<Datum>)
    requires InReach(table, args)
    ensures r == Bound(columns, table, args)
  {
    r := [];
    for i := 0 to |columns|
      invariant r == Bound(columns, table, args)[..i]
    {
      var tableOrdinal := Ordinal(table, columns[i].name);
      var arg := ConvertArg(columns[i], args[tableOrdinal]);
      r := r + [arg];
    }
  }

  function DeleteQuery(s: Schema, args: seq<Datum>): Result<Built>
    requires InReach(s.table, args)
  {
    if |args| != |s.table.columns| then Err("args count differs")
    else Ok(Built(DeleteWhere(Names(s.key.columns)), Bound(s.key.columns, s.table, args)))
  }

  function InsertQuery(s: Schema, args: seq<Datum>): Result<Built>
    requires InReach(s.table, args)
  {
    if |args| != |s.table.columns| then Err("args count differs")
    else Ok(Built(InsertIgnoreInto(s.mapped), Bound(s.shared.columns, s.table, args)))
  }

  function UpdateQuery(s: Schema, valueArgs: seq<Datum>, whereArgs: seq<Datum>): Result<Built>
    requires InReach(s.table, valueArgs) && InReach(s.table, whereArgs)
  {
    Ok(Built(UpdateSet(s.mapped, Names(s.key.columns)),
             Bound(s.shared.columns, s.table, valueArgs) + Bound(s.key.columns, s.table, whereArgs)))
  }

  // ----- what a statement does

  type Row = map<string, Stored>
  type Table = map<seq<Stored>, Row>

  predicate Matches(row: Row, names: seq<string>, values: seq<Stored>)
    requires |names| == |values|
  {
    forall i | 0 <= i < |names| :: names[i] in row && row[names[i]] == values[i]
  }

  function Slots(statement: Statement): nat {
    match statement
    case DeleteWhere(where) => |where|
    case InsertIgnoreInto(into) => |into|
    case UpdateSet(targets, where) => |targets| + |where|
  }

  /**
   The statement on a table whose unique key has the columns `key`. An update that
   would move a row is not covered.
   */
  function Execute(t: Table, key: seq<string>, statement: Statement, values: seq<Stored>): Table
    requires |values| == Slots(statement)
    requires statement.InsertIgnoreInto? ==> HasNames(Bind(statement.into, values), key)
  {
    match statement
    case DeleteWhere(where) => map k | k in t && !Matches(t[k], where, values) :: t[k]
    case InsertIgnoreInto(into) => var row := Bind(into, values); Replay.InsertIgnore(t, KeyOf(row, key), row)
    case UpdateSet(targets, where) =>
      map k | k in t ::
        if Matches(t[k], where, values[|targets|..]) then t[k] + Bind(targets, values[..|targets|]) else t[k]
  }
}
