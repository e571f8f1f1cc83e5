/**
 The walk from a replica up to its master.
 */
module MasterSearch {
  import opened Wrappers

  /** A host and port. */
  type Key = string

  /** What an instance says of its master. `Fails` covers a query or a TLS registration that fails. */
  datatype Answer = Fails | NoMaster | InvalidMaster | Master(key: Key)

  /** Every instance that can be asked; asking any other one fails. */
  type Topology = map<Key, Answer>

  function Ask(t: Topology, k: Key): Answer {
    if k in t then t[k] else Fails
  }

  predicate IsRoot(t: Topology, k: Key) {
    Ask(t, k).NoMaster? || Ask(t, k).InvalidMaster?
  }

  /** The instance `n` masters up from `k`. */
  function Up(t: Topology, k: Key, n: nat): Option<Key>
    decreases n
  {
    if n == 0 then Some(k)
    else if Ask(t, k).Master? then Up(t, Ask(t, k).key, n - 1)
    else None
  }

  ghost predicate Reaches(t: Topology, k: Key, r: Key) {
    exists n: nat :: Up(t, k, n) == Some(r)
  }

  ghost predicate OnCycle(t: Topology, k: Key) {
    exists n: nat :: n > 0 && Up(t, k, n) == Some(k)
  }

  lemma {:induction false} UpUp(t: Topology, k: Key, m: nat, n: nat)
    requires Up(t, k, m).Some?
    ensures Up(t, k, m + n) == Up(t, Up(t, k, m).value, n)
    decreases m
  {
    if m > 0 {
      UpUp(t, Ask(t, k).key, m - 1, n);
    }
  }

  // ----- the search

  class InstanceKeyMap {
    var keys: set<Key>

    constructor ()
      ensures keys == {}
    {
      keys := {};
    }

    method AddKey(k: Key)
      modifies this
      ensures keys == old(keys) + {k}
    {
      keys := keys + {k};
    }

    predicate HasKey(k: Key)
      reads this
    {
      k in keys
    }
  }

  function Masters(t: Topology): set<Key> {
    set k | k in t && t[k].Master? :: t[k].key
  }

  /** The keys visited are those passed on the way up from `start`. */
  ghost predicate Passed(t: Topology, start: Key, k: Key, n: nat, visited: set<Key>) {
    && Up(t, start, n) == Some(k)
    && forall x | x in visited :: exists i: nat :: 0 < i <= n && Up(t, start, i) == Some(x)
  }

  lemma PassedOne(t: Topology, start: Key, k: Key, n: nat, visited: set<Key>)
    requires Passed(t, start, k, n, visited) && Ask(t, k).Master?
    ensures Passed(t, start, Ask(t, k).key, n + 1, visited + {Ask(t, k).key})
  {
    UpUp(t, start, n, 1);
    assert Up(t, k, 1) == Some(Ask(t, k).key);
    forall x | x in visited + {Ask(t, k).key} ensures exists i: nat :: 0 < i <= n + 1 && Up(t, start, i) == Some(x) {
      if x in visited {
        var i: nat :| 0 < i <= n && Up(t, start, i) == Some(x);
        assert 0 < i <= n + 1;
      } else {
        assert Up(t, start, n + 1) == Some(x);
      }
    }
  }

  /** A master passed before closes a cycle. */
  lemma Closes(t: Topology, start: Key, k: Key, n: nat, visited: set<Key>)
    requires Passed(t, start, k, n, visited) && Ask(t, k).Master? && Ask(t, k).key in visited
    ensures OnCycle(t, k)
  {
    var m := Ask(t, k).key;
    var i: nat :| 0 < i <= n && Up(t, start, i) == Some(m);
    UpUp(t, start, i, n - i);
    assert Up(t, m, n - i) == Some(k);
    assert Up(t, k, 1 + (n - i)) == Some(k);
  }

  /**
   Walks up until there is no further master or a cycle closes. Every step
   visits a master not visited before, so the walk ends.
   */
  method GetMasterConnectionConfigSafe(t: Topology, k: Key, visited: InstanceKeyMap, allowMasterMaster: bool,
                                       ghost start: Key, ghost n: nat)
    returns (r: Result<Key>)
    requires Passed(t, start, k, n, visited.keys)
    modifies visited
    ensures r.Ok? ==> Reaches(t, start, r.value) && (IsRoot(t, r.value) || (allowMasterMaster && OnCycle(t, r.value)))
    ensures r.Err? ==> exists x :: Reaches(t, start, x) && (Ask(t, x).Fails? || (!allowMasterMaster && OnCycle(t, x)))
    decreases |Masters(t) - visited.keys|
  {
    var answer := Ask(t, k);
    assert Reaches(t, start, k);
    if answer.Fails? {
      return Err("cannot read the master");
    }
    if answer.NoMaster? {
      return Ok(k);
    }
    if answer.InvalidMaster? {
      return Ok(k);
    }
    if visited.HasKey(answer.key) {
      Closes(t, start, k, n, visited.keys);
      if allowMasterMaster {
        return Ok(k);
      }
      return Err("there seems to be a master-master setup");
    }
    PassedOne(t, start, k, n, visited.keys);
    assert answer.key in Masters(t) - visited.keys;
    ghost var before := Masters(t) - visited.keys;
    visited.AddKey(answer.key);
    assert Masters(t) - visited.keys == before - {answer.key};
    r := GetMasterConnectionConfigSafe(t, answer.key, visited, allowMasterMaster, start, n + 1);
  }

  /** The search from an instance, with nothing visited yet. */
  method FindMaster(t: Topology, start: Key, allowMasterMaster: bool) returns (r: Result<Key>)
    ensures r.Ok? <==>
            !(exists x :: Reaches(t, start, x) && (Ask(t, x).Fails? || (!allowMasterMaster && OnCycle(t, x))))
    ensures forall root | Reaches(t, start, root) && IsRoot(t, root) :: r == Ok(root)
    ensures r.Ok? && !IsRoot(t, r.value) ==> allowMasterMaster && OnCycle(t, r.value)
  {
    var visited := new InstanceKeyMap();
    r := GetMasterConnectionConfigSafe(t, start, visited, allowMasterMaster, start, 0);
    if r.Ok? {
      forall x | Reaches(t, start, x) ensures !Ask(t, x).Fails? && (!allowMasterMaster ==> !OnCycle(t, x)) {
        EndIsUnique(t, start, r.value, x);
      }
    }
    forall root | Reaches(t, start, root) && IsRoot(t, root) ensures r == Ok(root) {
      if r.Ok? {
        EndIsUnique(t, start, root, r.value);
      } else {
        var x :| Reaches(t, start, x) && (Ask(t, x).Fails? || (!allowMasterMaster && OnCycle(t, x)));
        EndIsUnique(t, start, root, x);
      }
    }
  }

  // ----- the walk can end in one way only

  ghost predicate IsEnd(t: Topology, k: Key) {
    !Ask(t, k).Master?
  }

  lemma {:induction false} NoEndFromCycle(t: Topology, k: Key, p: nat, q: nat)
    requires p > 0 && Up(t, k, p) == Some(k) && Up(t, k, q).Some? && IsEnd(t, Up(t, k, q).value)
    ensures false
    decreases q
  {
    if q < p {
      UpUp(t, k, q, p - q);
    } else {
      UpUp(t, k, p, q - p);
      NoEndFromCycle(t, k, p, q - p);
    }
  }

  /** If the walk ends, it ends in one place, passes no cycle, and nothing before its end fails. */
  lemma EndIsUnique(t: Topology, start: Key, r: Key, x: Key)
    requires Reaches(t, start, r) && Reaches(t, start, x) && (IsEnd(t, r) || OnCycle(t, r))
    ensures IsEnd(t, r) ==> !OnCycle(t, x) && (IsEnd(t, x) ==> x == r)
    ensures OnCycle(t, r) ==> !IsEnd(t, x)
  {
    var m: nat :| Up(t, start, m) == Some(r);
    var n: nat :| Up(t, start, n) == Some(x);
    if IsEnd(t, r) {
      if OnCycle(t, x) {
        var p: nat :| p > 0 && Up(t, x, p) == Some(x);
        if n <= m {
          UpUp(t, start, n, m - n);
          NoEndFromCycle(t, x, p, m - n);
        } else {
          UpUp(t, start, m, n - m);
        }
      } else if IsEnd(t, x) {
        if n <= m {
          UpUp(t, start, n, m - n);
        } else {
          UpUp(t, start, m, n - m);
        }
      }
    } else if IsEnd(t, x) {
      var p: nat :| p > 0 && Up(t, r, p) == Some(r);
      if m <= n {
        UpUp(t, start, m, n - m);
        NoEndFromCycle(t, r, p, n - m);
      } else {
        UpUp(t, start, n, m - n);
      }
    }
  }
}
