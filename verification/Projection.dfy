/**
 Rows by column name, and the ghost's view of a row of the original: the shared
 columns under the names they have in the ghost.
 */
module Projection {

  predicate HasNames<V>(row: map<string, V>, names: seq<string>) {
    forall i | 0 <= i < |names| :: names[i] in row
  }

  /** The row's values in the given columns. */
  function KeyOf<V>(row: map<string, V>, names: seq<string>): (k: seq<V>)
    requires HasNames(row, names)
    ensures |k| == |names| && forall i | 0 <= i < |k| :: k[i] == row[names[i]]
  {
    seq(|names|, i requires 0 <= i < |names| => row[names[i]])
  }

  function Bind<V>(names: seq<string>, values: seq<V>): map<string, V>
    requires |names| == |values|
  {
    if names == [] then map[]
    else
      var n := |names| - 1;
      Bind(names[..n], values[..n])[names[n] := values[n]]
  }

  lemma {:induction false} BindNames<V>(names: seq<string>, values: seq<V>, name: string)
    requires |names| == |values|
    ensures name in Bind(names, values) <==> name in names
  {
    if names != [] {
      BindNames(names[..|names| - 1], values[..|names| - 1], name);
    }
  }

  lemma {:induction false} BindAt<V>(names: seq<string>, values: seq<V>, j: nat)
    requires j < |names| == |values| && forall k | j < k < |names| :: names[k] != names[j]
    ensures names[j] in Bind(names, values) && Bind(names, values)[names[j]] == values[j]
  {
    var n := |names| - 1;
    if j < n {
      assert names[n] != names[j];
      BindAt(names[..n], values[..n], j);
    }
  }

  /** The shared columns, and their names in the ghost. */
  datatype Sharing = Sharing(shared: seq<string>, mapped: seq<string>)

  function ProjectedRow<V>(p: Sharing, row: map<string, V>): map<string, V>
    requires |p.mapped| == |p.shared| && HasNames(row, p.shared)
  {
    Bind(p.mapped, KeyOf(row, p.shared))
  }

  predicate DistinctNames(names: seq<string>) {
    forall i, j | 0 <= i < j < |names| :: names[i] != names[j]
  }

  /** The ghost calls a column by the name it has in the original. */
  predicate KeptName(p: Sharing, name: string)
    requires |p.mapped| == |p.shared|
  {
    exists j :: 0 <= j < |p.mapped| && p.mapped[j] == name && p.shared[j] == name
  }

  /** The given columns are shared and not renamed. */
  predicate KeepsNames(p: Sharing, names: seq<string>) {
    && |p.mapped| == |p.shared| && DistinctNames(p.mapped)
    && forall i | 0 <= i < |names| :: KeptName(p, names[i])
  }

  /** The projected row has just the mapped columns, and in each the value of the column that it stands for. */
  lemma ProjectedValues<V>(p: Sharing, row: map<string, V>)
    requires |p.mapped| == |p.shared| && DistinctNames(p.mapped) && HasNames(row, p.shared)
    ensures var projected := ProjectedRow(p, row);
            && projected.Keys == (set name | name in p.mapped)
            && forall j | 0 <= j < |p.mapped| :: p.mapped[j] in projected && projected[p.mapped[j]] == row[p.shared[j]]
  {
    var projected, values := ProjectedRow(p, row), KeyOf(row, p.shared);
    forall j | 0 <= j < |p.mapped| ensures p.mapped[j] in projected && projected[p.mapped[j]] == row[p.shared[j]] {
      assert forall k | j < k < |p.mapped| :: p.mapped[k] != p.mapped[j];
      BindAt(p.mapped, values, j);
    }
    forall name ensures name in projected <==> name in p.mapped {
      BindNames(p.mapped, values, name);
    }
  }

  /** So it has the key of the row, where the key's columns keep their names. */
  lemma ProjectedRowKey<V>(p: Sharing, names: seq<string>, row: map<string, V>)
    requires KeepsNames(p, names) && HasNames(row, p.shared)
    ensures var projected := ProjectedRow(p, row);
            && HasNames(row, names) && HasNames(projected, names)
            && KeyOf(projected, names) == KeyOf(row, names) && projected.Keys == set name | name in p.mapped
  {
    var projected := ProjectedRow(p, row);
    ProjectedValues(p, row);
    forall i | 0 <= i < |names|
      ensures names[i] in row && names[i] in projected && projected[names[i]] == row[names[i]]
    {
      assert KeptName(p, names[i]);
      var j :| 0 <= j < |p.mapped| && p.mapped[j] == names[i] && p.shared[j] == names[i];
    }
  }
}
