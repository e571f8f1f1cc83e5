/**
 Invariants of the tasks in flight between the binlog reader and the worker.

 The tasks are listed in the order in which the worker will handle them. `at`
 is the log position up to which the replay has come, `floor` a position the
 stream never goes back behind, and `high` the furthest position ever reached.
 */
module Flow {
  import opened Wrappers
  import opened Batching

  /** The position the replay has come to once `tasks` are handled. */
  function End(tasks: seq<Task>, at: nat): nat {
    if tasks == [] then at
    else if tasks[0].Dml? then End(tasks[1..], tasks[0].pos + 1)
    else End(tasks[1..], at)
  }

  /** The stream may go back, but skips no position, and stays within a log of `n` changes. */
  predicate Gapless(tasks: seq<Task>, at: nat, n: nat) {
    if tasks == [] then true
    else if tasks[0].Dml? then
      tasks[0].pos <= at && tasks[0].pos < n && Gapless(tasks[1..], tasks[0].pos + 1, n)
    else Gapless(tasks[1..], at, n)
  }

  function Max(a: nat, b: nat): nat { if a < b then b else a }

  function Min(a: nat, b: nat): nat { if a < b then a else b }

  function HighEnd(tasks: seq<Task>, high: nat): nat {
    if tasks == [] then high
    else if tasks[0].Dml? then HighEnd(tasks[1..], Max(high, tasks[0].pos + 1))
    else HighEnd(tasks[1..], high)
  }

  /** Every marker comes after all rows of the transactions it completes. */
  predicate Marked(tasks: seq<Task>, high: nat) {
    if tasks == [] then true
    else match tasks[0]
      case Dml(p) => p <= high && Marked(tasks[1..], Max(high, p + 1))
      case Complete(c) => c <= high && Marked(tasks[1..], high)
      case Write(_) => Marked(tasks[1..], high)
  }

  function FloorEnd(tasks: seq<Task>, floor: nat): nat {
    if LastMarker(tasks).Some? then LastMarker(tasks).value else floor
  }

  /**
   Nothing after a marker goes back behind it, and a sentinel comes after the
   marker of every transaction that preceded its challenge in the log.
   */
  predicate Ordered(tasks: seq<Task>, floor: nat, at: nat, challenges: map<nat, nat>) {
    if tasks == [] then true
    else match tasks[0]
      case Dml(p) => floor <= p <= at && Ordered(tasks[1..], floor, p + 1, challenges)
      case Complete(c) => floor <= c <= at && Ordered(tasks[1..], c, at, challenges)
      case Write(id) => id in challenges && challenges[id] <= floor && Ordered(tasks[1..], floor, at, challenges)
  }

  lemma {:induction false} GaplessAppend(a: seq<Task>, b: seq<Task>, at: nat, n: nat)
    ensures End(a + b, at) == End(b, End(a, at))
    ensures Gapless(a + b, at, n) <==> Gapless(a, at, n) && Gapless(b, End(a, at), n)
  {
    if a == [] {
      assert a + b == b;
    } else {
      assert (a + b)[0] == a[0] && (a + b)[1..] == a[1..] + b;
      GaplessAppend(a[1..], b, if a[0].Dml? then a[0].pos + 1 else at, n);
    }
  }

  lemma {:induction false} MarkedAppend(a: seq<Task>, b: seq<Task>, high: nat)
    ensures HighEnd(a + b, high) == HighEnd(b, HighEnd(a, high))
    ensures Marked(a + b, high) <==> Marked(a, high) && Marked(b, HighEnd(a, high))
  {
    if a == [] {
      assert a + b == b;
    } else {
      assert (a + b)[0] == a[0] && (a + b)[1..] == a[1..] + b;
      MarkedAppend(a[1..], b, if a[0].Dml? then Max(high, a[0].pos + 1) else high);
    }
  }

  lemma {:induction false} OrderedAppend(a: seq<Task>, b: seq<Task>, floor: nat, at: nat, challenges: map<nat, nat>)
    ensures Ordered(a + b, floor, at, challenges) <==>
            Ordered(a, floor, at, challenges) && Ordered(b, FloorEnd(a, floor), End(a, at), challenges)
  {
    if a == [] {
      assert a + b == b;
    } else {
      assert (a + b)[0] == a[0] && (a + b)[1..] == a[1..] + b;
      var floor' := if a[0].Complete? then a[0].coord else floor;
      var at' := if a[0].Dml? then a[0].pos + 1 else at;
      OrderedAppend(a[1..], b, floor', at', challenges);
      assert FloorEnd(a, floor) == FloorEnd(a[1..], floor');
    }
  }

  predicate Fits(t: Task, floor: nat, at: nat, challenges: map<nat, nat>) {
    match t
    case Dml(p) => floor <= p <= at
    case Complete(c) => floor <= c <= at
    case Write(id) => id in challenges && challenges[id] <= floor
  }

  /** A single task in flight. */
  lemma OneTask(t: Task, floor: nat, at: nat, challenges: map<nat, nat>)
    ensures FloorEnd([t], floor) == if t.Complete? then t.coord else floor
    ensures End([t], at) == if t.Dml? then t.pos + 1 else at
    ensures Ordered([t], floor, at, challenges) <==> Fits(t, floor, at, challenges)
  {
    assert [t][0] == t && [t][1..] == [];
    assert LastMarker([t][1..]) == None;
  }

  lemma FloorEndAppend(a: seq<Task>, b: seq<Task>, floor: nat)
    ensures FloorEnd(a + b, floor) == FloorEnd(b, FloorEnd(a, floor))
  {
    LastMarkerAppend(a, b);
  }

  lemma {:induction false} GaplessGrows(tasks: seq<Task>, at: nat, n: nat, n': nat)
    requires Gapless(tasks, at, n) && n <= n'
    ensures Gapless(tasks, at, n')
  {
    if tasks != [] {
      GaplessGrows(tasks[1..], if tasks[0].Dml? then tasks[0].pos + 1 else at, n, n');
    }
  }

  lemma {:induction false} OrderedGrows(tasks: seq<Task>, floor: nat, at: nat, challenges: map<nat, nat>, id: nat,
                                        pos: nat)
    requires Ordered(tasks, floor, at, challenges) && id !in challenges
    ensures Ordered(tasks, floor, at, challenges[id := pos])
  {
    if tasks != [] {
      var floor' := if tasks[0].Complete? then tasks[0].coord else floor;
      OrderedGrows(tasks[1..], floor', if tasks[0].Dml? then tasks[0].pos + 1 else at, challenges, id, pos);
    }
  }

  lemma {:induction false} OrderedEnds(tasks: seq<Task>, floor: nat, at: nat, challenges: map<nat, nat>)
    requires Ordered(tasks, floor, at, challenges) && floor <= at
    ensures floor <= FloorEnd(tasks, floor) <= End(tasks, at)
  {
    if tasks != [] {
      var floor' := if tasks[0].Complete? then tasks[0].coord else floor;
      OrderedEnds(tasks[1..], floor', if tasks[0].Dml? then tasks[0].pos + 1 else at, challenges);
      assert FloorEnd(tasks, floor) == FloorEnd(tasks[1..], floor');
    }
  }

  lemma {:induction false} GaplessBounded(tasks: seq<Task>, at: nat, n: nat)
    requires Gapless(tasks, at, n) && at <= n
    ensures End(tasks, at) <= n
  {
    if tasks != [] {
      GaplessBounded(tasks[1..], if tasks[0].Dml? then tasks[0].pos + 1 else at, n);
    }
  }

  lemma {:induction false} HighCovers(tasks: seq<Task>, at: nat, high: nat)
    requires at <= high
    ensures End(tasks, at) <= HighEnd(tasks, high) && high <= HighEnd(tasks, high)
  {
    if tasks != [] {
      if tasks[0].Dml? {
        HighCovers(tasks[1..], tasks[0].pos + 1, Max(high, tasks[0].pos + 1));
      } else {
        HighCovers(tasks[1..], at, high);
      }
    }
  }

  lemma {:induction false} RowlessEnds(tasks: seq<Task>, at: nat, high: nat)
    requires Rows(tasks) == []
    ensures End(tasks, at) == at && HighEnd(tasks, high) == high
  {
    if tasks != [] {
      RowlessEnds(tasks[1..], at, high);
    }
  }

  /** The sentinels among `tasks` all lie before the last marker. */
  lemma {:induction false} SentinelsBelowFloor(tasks: seq<Task>, floor: nat, at: nat, challenges: map<nat, nat>,
                                               id: nat)
    requires Ordered(tasks, floor, at, challenges) && floor <= at && id in Writes(tasks)
    ensures id in challenges && challenges[id] <= FloorEnd(tasks, floor)
  {
    OrderedEnds(tasks, floor, at, challenges);
    if tasks[0].Write? && tasks[0].id == id {
    } else {
      var floor' := if tasks[0].Complete? then tasks[0].coord else floor;
      SentinelsBelowFloor(tasks[1..], floor', if tasks[0].Dml? then tasks[0].pos + 1 else at, challenges, id);
      assert FloorEnd(tasks, floor) == FloorEnd(tasks[1..], floor');
    }
  }

  // ----- what is left of a batch once its rows are committed

  function Leftover(tasks: seq<Task>): seq<Task> {
    (if LastMarker(tasks).Some? then [Complete(LastMarker(tasks).value)] else []) +
    (if Writes(tasks) != [] then [Write(Writes(tasks)[0])] else [])
  }

  lemma {:induction false} LastMarkerBelowHigh(tasks: seq<Task>, high: nat)
    requires Marked(tasks, high) && LastMarker(tasks).Some?
    ensures LastMarker(tasks).value <= HighEnd(tasks, high)
  {
    if LastMarker(tasks[1..]).Some? {
      LastMarkerBelowHigh(tasks[1..], if tasks[0].Dml? then Max(high, tasks[0].pos + 1) else high);
    } else {
      HighCovers(tasks[1..], high, high);
    }
  }

  lemma LeftoverMarked(tasks: seq<Task>, high: nat)
    requires Marked(tasks, high)
    ensures Rows(Leftover(tasks)) == []
    ensures Marked(Leftover(tasks), HighEnd(tasks, high))
    ensures LastMarker(Leftover(tasks)) == LastMarker(tasks)
  {
    if LastMarker(tasks).Some? {
      LastMarkerBelowHigh(tasks, high);
    }
    var m := if LastMarker(tasks).Some? then [Complete(LastMarker(tasks).value)] else [];
    var w := if Writes(tasks) != [] then [Write(Writes(tasks)[0])] else [];
    assert Rows(m) == [];
    assert Rows(w) == [];
    RowsAppend(m, w);
    MarkedAppend(m, w, HighEnd(tasks, high));
    LastMarkerAppend(m, w);
  }

  lemma LeftoverOrdered(tasks: seq<Task>, floor: nat, at: nat, challenges: map<nat, nat>)
    requires Ordered(tasks, floor, at, challenges) && floor <= at
    ensures Ordered(Leftover(tasks), floor, End(tasks, at), challenges)
  {
    OrderedEnds(tasks, floor, at, challenges);
    var m := if LastMarker(tasks).Some? then [Complete(LastMarker(tasks).value)] else [];
    var w := if Writes(tasks) != [] then [Write(Writes(tasks)[0])] else [];
    if w != [] {
      SentinelsBelowFloor(tasks, floor, at, challenges, Writes(tasks)[0]);
    }
    assert Ordered(m, floor, End(tasks, at), challenges);
    assert LastMarker(m) == LastMarker(tasks);
    assert w != [] ==> w[1..] == [];
    assert Ordered(w, FloorEnd(m, floor), End(tasks, at), challenges);
    assert End(m, End(tasks, at)) == End(tasks, at);
    OrderedAppend(m, w, floor, End(tasks, at), challenges);
  }
}
