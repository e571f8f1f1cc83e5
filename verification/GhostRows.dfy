/**
 The copy and the replay write the same rows. The copy orders key values, which are
 reals here; the replay only tells stored values apart. A ranking takes stored values
 to reals, and everything written commutes with it.
 */
module GhostRows {
  import opened Columns
  import opened Dml
  import opened Projection
  import opened RowEvents
  import opened RowReplay
  import Chunks
  import Keys
  import Protocol
  import Replay
  import RowCopy

  type Ranking = Stored -> Keys.Value

  ghost predicate TellsApart(rank: Ranking) {
    forall a, b | rank(a) == rank(b) :: a == b
  }

  function RankedKey(rank: Ranking, k: seq<Stored>): (r: Keys.Key)
    ensures |r| == |k| && forall i | 0 <= i < |k| :: r[i] == rank(k[i])
  {
    seq(|k|, i requires 0 <= i < |k| => rank(k[i]))
  }

  function RankedRow(rank: Ranking, row: Row): (r: Protocol.Row)
    ensures r.Keys == row.Keys && forall name | name in row :: r[name] == rank(row[name])
  {
    map name | name in row :: rank(row[name])
  }

  /** The ranked ghost: the same rows under the same keys. */
  ghost predicate Represents(rank: Ranking, g: Table, t: Protocol.Table) {
    && (forall k | k in g :: RankedKey(rank, k) in t && t[RankedKey(rank, k)] == RankedRow(rank, g[k]))
    && (forall x | x in t :: exists k :: k in g && RankedKey(rank, k) == x)
  }

  lemma RankedKeysDiffer(rank: Ranking, k: seq<Stored>, k': seq<Stored>)
    requires TellsApart(rank)
    ensures RankedKey(rank, k) == RankedKey(rank, k') <==> k == k'
  {
    if RankedKey(rank, k) == RankedKey(rank, k') {
      forall i | 0 <= i < |k| ensures k[i] == k'[i] {
        assert RankedKey(rank, k)[i] == RankedKey(rank, k')[i];
      }
    }
  }

  // ----- projecting commutes with ranking

  lemma {:induction false} RankedBind(rank: Ranking, names: seq<string>, values: seq<Stored>)
    requires |names| == |values|
    ensures Bind(names, RankedKey(rank, values)) == RankedRow(rank, Bind(names, values))
  {
    if names != [] {
      var n := |names| - 1;
      RankedBind(rank, names[..n], values[..n]);
      assert RankedKey(rank, values)[..n] == RankedKey(rank, values[..n]);
    }
  }

  lemma RankedColumns(rank: Ranking, row: Row, names: seq<string>)
    requires HasNames(row, names)
    ensures HasNames(RankedRow(rank, row), names)
    ensures KeyOf(RankedRow(rank, row), names) == RankedKey(rank, KeyOf(row, names))
  {
  }

  lemma RankedProjection(rank: Ranking, p: Sharing, row: Row)
    requires |p.mapped| == |p.shared| && HasNames(row, p.shared)
    ensures HasNames(RankedRow(rank, row), p.shared)
    ensures ProjectedRow(p, RankedRow(rank, row)) == RankedRow(rank, ProjectedRow(p, row))
  {
    RankedColumns(rank, row, p.shared);
    RankedBind(rank, p.mapped, KeyOf(row, p.shared));
  }

  // ----- so does replaying

  lemma StoreRepresented(rank: Ranking, g: Table, t: Protocol.Table, k: seq<Stored>, row: Row)
    requires TellsApart(rank) && Represents(rank, g, t)
    ensures Represents(rank, g[k := row], t[RankedKey(rank, k) := RankedRow(rank, row)])
  {
    var g', t' := g[k := row], t[RankedKey(rank, k) := RankedRow(rank, row)];
    forall x | x in g' ensures RankedKey(rank, x) in t' && t'[RankedKey(rank, x)] == RankedRow(rank, g'[x]) {
      RankedKeysDiffer(rank, x, k);
    }
    forall x | x in t' ensures exists y :: y in g' && RankedKey(rank, y) == x {
      if x == RankedKey(rank, k) {
        assert k in g';
      } else {
        var y :| y in g && RankedKey(rank, y) == x;
        assert y in g';
      }
    }
  }

  lemma RemoveRepresented(rank: Ranking, g: Table, t: Protocol.Table, k: seq<Stored>)
    requires TellsApart(rank) && Represents(rank, g, t)
    ensures Represents(rank, g - {k}, t - {RankedKey(rank, k)})
  {
    var g', t' := g - {k}, t - {RankedKey(rank, k)};
    forall x | x in g' ensures RankedKey(rank, x) in t' && t'[RankedKey(rank, x)] == RankedRow(rank, g'[x]) {
      RankedKeysDiffer(rank, x, k);
    }
    forall x | x in t' ensures exists y :: y in g' && RankedKey(rank, y) == x {
      var y :| y in g && RankedKey(rank, y) == x;
      assert y in g';
    }
  }

  lemma KeyRepresented(rank: Ranking, g: Table, t: Protocol.Table, k: seq<Stored>)
    requires TellsApart(rank) && Represents(rank, g, t)
    ensures k in g <==> RankedKey(rank, k) in t
  {
    if RankedKey(rank, k) in t {
      var y :| y in g && RankedKey(rank, y) == RankedKey(rank, k);
      RankedKeysDiffer(rank, y, k);
    }
  }

  lemma InsertRepresented(rank: Ranking, g: Table, t: Protocol.Table, k: seq<Stored>, row: Row)
    requires TellsApart(rank) && Represents(rank, g, t)
    ensures Represents(rank, Replay.InsertIgnore(g, k, row),
                       Replay.InsertIgnore(t, RankedKey(rank, k), RankedRow(rank, row)))
  {
    KeyRepresented(rank, g, t, k);
    StoreRepresented(rank, g, t, k, row);
  }

  function RankedEvent(rank: Ranking, e: Replay.Event<seq<Stored>, Row>): Protocol.Change {
    match e
    case Insert(k, row) => Replay.Insert(RankedKey(rank, k), RankedRow(rank, row))
    case Delete(k) => Replay.Delete(RankedKey(rank, k))
    case Update(from, to, row) => Replay.Update(RankedKey(rank, from), RankedKey(rank, to), RankedRow(rank, row))
  }

  /** An event does to the ranked ghost what it does to the ghost. */
  lemma ApplyRepresented(rank: Ranking, g: Table, t: Protocol.Table, e: Replay.Event<seq<Stored>, Row>, rebuilt: bool)
    requires TellsApart(rank) && Represents(rank, g, t)
    ensures Represents(rank, Replay.ApplyBuilt(g, e, rebuilt), Replay.ApplyBuilt(t, RankedEvent(rank, e), rebuilt))
    ensures Replay.MovesKey(RankedEvent(rank, e)) <==> Replay.MovesKey(e)
  {
    match e
    case Insert(k, row) => InsertRepresented(rank, g, t, k, row);
    case Delete(k) => RemoveRepresented(rank, g, t, k);
    case Update(from, to, row) =>
      RankedKeysDiffer(rank, from, to);
      KeyRepresented(rank, g, t, from);
      StoreRepresented(rank, g, t, to, row);
      RemoveRepresented(rank, g, t, from);
      InsertRepresented(rank, g, t, to, row);
      InsertRepresented(rank, g - {from}, t - {RankedKey(rank, from)}, to, row);
  }

  // ----- the statements, as events of the protocol

  /**
   The statements built for a logged change, performed on the ghost, do what the
   protocol does with the change: on the first build and when a retry builds it again.
   */
  lemma StatementsAreProtocolEvents(s: Schema, domains: Domains, rank: Ranking, g: Table, t: Protocol.Table, c: Change,
                                    where: seq<Datum>, values: seq<Datum>)
    requires IsChange(s, domains, c) && IsGhost(s, g) && Logs(s, domains, c, where, values)
    requires TellsApart(rank) && Represents(rank, g, t)
    ensures var event := RankedEvent(rank, EventOf(s, domains, c));
            && Represents(rank, PerformAll(s, domains, g, Results(s, c.dml, where, values)), Replay.Apply(t, event))
            && Represents(rank, PerformAll(s, domains, g, Results(s, TagAfter(s, c.dml, where, values), where, values)),
                          Replay.ApplyBuilt(t, event, true))
  {
    EventIsReplayed(s, domains, g, c, where, values);
    RebuiltEventIsReplayed(s, domains, g, c, where, values);
    ApplyRepresented(rank, g, t, EventOf(s, domains, c), false);
    ApplyRepresented(rank, g, t, EventOf(s, domains, c), true);
  }

  // ----- the copy, as the same rows

  lemma InsertOne(t: Protocol.Table, row: Protocol.Row, columns: seq<string>, p: Sharing)
    requires KeepsNames(p, columns) && HasNames(row, p.shared)
    ensures HasNames(row, columns) && RowCopy.Copyable([row], columns, p)
    ensures RowCopy.InsertRows(t, [row], columns, p) ==
            Replay.InsertIgnore(t, KeyOf(row, columns), ProjectedRow(p, row))
  {
    ProjectedRowKey(p, columns, row);
    var rows := [row];
    assert rows[0] == row && rows[1..] == [];
  }

  /** The ranked row has the ranked key and the ranked projection. */
  lemma RankedLikeProjected(s: Schema, domains: Domains, rank: Ranking, row: Row)
    requires Sound(s, domains) && IsRow(s, domains, row)
    ensures HasNames(row, Names(s.key.columns)) && HasNames(row, Names(s.shared.columns))
    ensures var ranked, key, p := RankedRow(rank, row), Names(s.key.columns), SharingOf(s);
            && HasNames(ranked, key) && HasNames(ranked, p.shared)
            && KeyOf(ranked, key) == RankedKey(rank, KeyFor(s, row))
            && ProjectedRow(p, ranked) == RankedRow(rank, Projected(s, row))
  {
    ProjectedKey(s, domains, row);
    RankedProjection(rank, SharingOf(s), row);
    RankedColumns(rank, row, Names(s.key.columns));
  }

  /** A row of the original, copied, is the row that its logged INSERT would write. */
  lemma CopiedLikeReplayed(s: Schema, domains: Domains, rank: Ranking, g: Table, t: Protocol.Table, row: Row)
    requires Sound(s, domains) && IsRow(s, domains, row) && TellsApart(rank) && Represents(rank, g, t)
    ensures RowCopy.Copyable([RankedRow(rank, row)], Names(s.key.columns), SharingOf(s))
    ensures InsertQuery(s, LoggedRow(s, domains, row)).Ok?
    ensures Represents(rank, Perform(s, domains, g, InsertQuery(s, LoggedRow(s, domains, row)).value),
                       RowCopy.InsertRows(t, [RankedRow(rank, row)], Names(s.key.columns), SharingOf(s)))
  {
    PerformInsert(s, domains, g, row);
    RankedLikeProjected(s, domains, rank, row);
    InsertOne(t, RankedRow(rank, row), Names(s.key.columns), SharingOf(s));
    InsertRepresented(rank, g, t, KeyFor(s, row), Projected(s, row));
  }

  /** In the original as the copy reads it, each row stands under its key as replay would write it. */
  lemma CopiedRowIsProjected(s: Schema, domains: Domains, rank: Ranking, rows: seq<Protocol.Row>, row: Row)
    requires Sound(s, domains) && IsRow(s, domains, row) && RankedRow(rank, row) in rows
    requires RowCopy.Copyable(rows, Names(s.key.columns), SharingOf(s)) && Chunks.UniqueKeys(rows, Names(s.key.columns))
    ensures HasNames(row, Names(s.key.columns)) && HasNames(row, Names(s.shared.columns))
    ensures var k, t := RankedKey(rank, KeyFor(s, row)), RowCopy.AsTable(rows, Names(s.key.columns), SharingOf(s));
            k in t && t[k] == RankedRow(rank, Projected(s, row))
  {
    RankedLikeProjected(s, domains, rank, row);
    RowCopy.AsTableAt(rows, Names(s.key.columns), SharingOf(s), RankedKey(rank, KeyFor(s, row)), RankedRow(rank, row));
  }
}
