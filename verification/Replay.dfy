/**
 Row changes of the original table and what the applier does with them.

 `Commit` is what a change did to the original table; `Apply` is what its
 replay does to the ghost table, where inserts are `insert ignore`, updates and
 deletes address the row by its old key, and a key-changing update is a delete
 followed by an insert.
 */
module Replay {
  import opened Wrappers

  datatype Event<K, V> =
    | Insert(key: K, row: V)
    | Delete(key: K)
    | Update(key: K, newKey: K, row: V)

  predicate MovesKey<K(==), V>(e: Event<K, V>) {
    e.Update? && e.key != e.newKey
  }

  /** The original table can undergo `e`. */
  predicate Possible<K(==), V>(t: map<K, V>, e: Event<K, V>) {
    match e
    case Insert(k, _) => k !in t
    case Delete(k) => k in t
    case Update(k, k', _) => k in t && (k' == k || k' !in t)
  }

  function Commit<K(==), V>(t: map<K, V>, e: Event<K, V>): map<K, V> {
    match e
    case Insert(k, v) => t[k := v]
    case Delete(k) => t - {k}
    case Update(k, k', v) => (t - {k})[k' := v]
  }

  /** The original after the first `p` changes of the log. */
  function At<K(==), V>(init: map<K, V>, log: seq<Event<K, V>>, p: nat): map<K, V>
    requires p <= |log|
  {
    if p == 0 then init else Commit(At(init, log, p - 1), log[p - 1])
  }

  ghost predicate ValidLog<K, V>(init: map<K, V>, log: seq<Event<K, V>>) {
    forall p: nat | p < |log| :: Possible(At(init, log, p), log[p])
  }

  function InsertIgnore<K(==), V>(g: map<K, V>, k: K, v: V): map<K, V> {
    if k in g then g else g[k := v]
  }

  function Apply<K(==), V>(g: map<K, V>, e: Event<K, V>): map<K, V> {
    match e
    case Insert(k, v) => InsertIgnore(g, k, v)
    case Delete(k) => g - {k}
    case Update(k, k', v) =>
      if k == k' then
        if k in g then g[k := v] else g
      else
        InsertIgnore(g - {k}, k', v)
  }

  /**
   What the statements built for `e` do when they are built for the second
   time: the first build left a key-changing update tagged as an insert.
   */
  function ApplyBuilt<K(==), V>(g: map<K, V>, e: Event<K, V>, rebuilt: bool): map<K, V> {
    if rebuilt && MovesKey(e) then InsertIgnore(g, e.newKey, e.row) else Apply(g, e)
  }

  /**
   A second build does to the ghost what the first would do exactly when the event
   moves no key, or the ghost lacks the key it moves from.
   */
  lemma RebuiltSameExactlyWhen<K, V>(g: map<K, V>, e: Event<K, V>)
    ensures ApplyBuilt(g, e, true) == Apply(g, e) <==> !MovesKey(e) || e.key !in g
  {
    if MovesKey(e) {
      assert e.key !in Apply(g, e);
      if e.key !in g {
        assert g - {e.key} == g;
      }
    }
  }

  function Lookup<K(==), V>(t: map<K, V>, k: K): Option<V> {
    if k in t then Some(t[k]) else None
  }

  /** `g` holds for `k` what the original held after `p` changes. */
  predicate AsOf<K(==), V(==)>(init: map<K, V>, log: seq<Event<K, V>>, p: nat, g: map<K, V>, k: K)
    requires p <= |log|
  {
    Lookup(g, k) == Lookup(At(init, log, p), k)
  }

  /**
   The invariant of one key, when the changes from position `from` on are still
   to be replayed: the row copy has not reached the key and the ghost lacks it,
   or the ghost holds what the original held at a position not before `from`.
   */
  ghost predicate KeyOk<K, V>(init: map<K, V>, log: seq<Event<K, V>>, from: nat, g: map<K, V>, covered: bool, k: K) {
    || (!covered && k !in g)
    || (exists p: nat :: from <= p <= |log| && AsOf(init, log, p, g, k))
  }

  lemma {:induction false} AtPrefix<K, V>(init: map<K, V>, log: seq<Event<K, V>>, log': seq<Event<K, V>>, p: nat)
    requires p <= |log| && p <= |log'| && log[..p] == log'[..p]
    ensures At(init, log, p) == At(init, log', p)
  {
    if p > 0 {
      assert log[..p - 1] == log[..p][..p - 1] == log'[..p][..p - 1] == log'[..p - 1];
      AtPrefix(init, log, log', p - 1);
      assert log[p - 1] == log[..p][p - 1] == log'[..p][p - 1] == log'[p - 1];
    }
  }

  lemma PossibleInLonger<K, V>(init: map<K, V>, log: seq<Event<K, V>>, e: Event<K, V>, p: nat)
    requires p <= |log| && (p < |log| ==> Possible(At(init, log, p), log[p]))
    requires p == |log| ==> Possible(At(init, log, p), e)
    ensures Possible(At(init, log + [e], p), (log + [e])[p]) && At(init, log + [e], p) == At(init, log, p)
  {
    assert log[..p] == (log + [e])[..p];
    AtPrefix(init, log, log + [e], p);
  }

  lemma ValidLogAppend<K, V>(init: map<K, V>, log: seq<Event<K, V>>, e: Event<K, V>)
    requires ValidLog(init, log) && Possible(At(init, log, |log|), e)
    ensures ValidLog(init, log + [e])
    ensures At(init, log + [e], |log| + 1) == Commit(At(init, log, |log|), e)
  {
    forall p: nat | p < |log + [e]| ensures Possible(At(init, log + [e], p), (log + [e])[p]) {
      PossibleInLonger(init, log, e, p);
    }
    PossibleInLonger(init, log, e, |log|);
  }

  /** Growing the log changes nothing about a key. */
  lemma KeyOkGrows<K, V>(init: map<K, V>, log: seq<Event<K, V>>, log': seq<Event<K, V>>, from: nat, g: map<K, V>,
                         covered: bool, k: K)
    requires log <= log'
    requires KeyOk(init, log, from, g, covered, k)
    ensures KeyOk(init, log', from, g, covered, k)
  {
    if covered || k in g {
      var p: nat :| from <= p <= |log| && AsOf(init, log, p, g, k);
      AtPrefix(init, log, log', p);
      assert AsOf(init, log', p, g, k);
    }
  }

  /**
   One change seen at one key: the replay brings the ghost to what the original
   holds after the change, or leaves alone a ghost that differed before it.
   */
  lemma ApplyAtKey<K, V>(t: map<K, V>, g: map<K, V>, e: Event<K, V>, k: K)
    requires Possible(t, e)
    ensures || Lookup(Apply(g, e), k) == Lookup(Commit(t, e), k)
            || (Lookup(Apply(g, e), k) == Lookup(g, k) != Lookup(t, k))
  {
  }

  /** Replaying the next change keeps a key's invariant one position further on. */
  lemma KeyOkApply<K, V>(init: map<K, V>, log: seq<Event<K, V>>, from: nat, g: map<K, V>, covered: bool, k: K)
    requires ValidLog(init, log) && from < |log|
    requires KeyOk(init, log, from, g, covered, k)
    ensures KeyOk(init, log, from + 1, Apply(g, log[from]), covered, k)
  {
    var t, e := At(init, log, from), log[from];
    var g' := Apply(g, e);
    assert At(init, log, from + 1) == Commit(t, e);
    ApplyAtKey(t, g, e, k);
    if Lookup(g', k) == Lookup(Commit(t, e), k) {
      assert AsOf(init, log, from + 1, g', k);
    } else if covered || k in g {
      var p: nat :| from <= p <= |log| && AsOf(init, log, p, g, k);
      assert p != from;
      assert AsOf(init, log, p, g', k);
    }
  }

  /** Replaying a change that is not behind the position loses nothing of a key's invariant. */
  lemma KeyOkAhead<K, V>(init: map<K, V>, log: seq<Event<K, V>>, from: nat, g: map<K, V>, covered: bool, k: K, p: nat)
    requires ValidLog(init, log) && from <= p < |log|
    requires KeyOk(init, log, from, g, covered, k)
    ensures KeyOk(init, log, from, Apply(g, log[p]), covered, k)
  {
    var t, e := At(init, log, p), log[p];
    var g' := Apply(g, e);
    assert At(init, log, p + 1) == Commit(t, e);
    ApplyAtKey(t, g, e, k);
    if Lookup(g', k) == Lookup(Commit(t, e), k) {
      assert AsOf(init, log, p + 1, g', k);
    } else if covered || k in g {
      var q: nat :| from <= q <= |log| && AsOf(init, log, q, g, k);
      assert AsOf(init, log, q, g', k);
    }
  }

  /** Copying a row by `insert ignore` from the current original. */
  lemma KeyOkCopied<K, V>(init: map<K, V>, log: seq<Event<K, V>>, from: nat, g: map<K, V>, covered: bool, k: K,
                          g': map<K, V>)
    requires from <= |log|
    requires KeyOk(init, log, from, g, covered, k)
    requires Lookup(g', k) == if k in g then Lookup(g, k) else Lookup(At(init, log, |log|), k)
    ensures KeyOk(init, log, from, g', true, k)
  {
    if k in g {
      var p: nat :| from <= p <= |log| && AsOf(init, log, p, g, k);
      assert AsOf(init, log, p, g', k);
    } else {
      assert AsOf(init, log, |log|, g', k);
    }
  }

  /** A key the current original lacks counts as copied. */
  lemma KeyOkAbsent<K, V>(init: map<K, V>, log: seq<Event<K, V>>, from: nat, g: map<K, V>, covered: bool, k: K)
    requires from <= |log| && k !in At(init, log, |log|)
    requires KeyOk(init, log, from, g, covered, k)
    ensures KeyOk(init, log, from, g, true, k)
  {
    KeyOkCopied(init, log, from, g, covered, k, g);
  }

  /** Replaying all remaining changes over a wholly copied ghost gives the original. */
  ghost function ApplyFrom<K, V>(g: map<K, V>, log: seq<Event<K, V>>, from: nat): map<K, V>
    requires from <= |log|
    decreases |log| - from
  {
    if from == |log| then g else ApplyFrom(Apply(g, log[from]), log, from + 1)
  }

  lemma {:induction false} CatchUp<K(!new), V>(init: map<K, V>, log: seq<Event<K, V>>, from: nat, g: map<K, V>)
    requires ValidLog(init, log) && from <= |log|
    requires forall k :: KeyOk(init, log, from, g, true, k)
    ensures ApplyFrom(g, log, from) == At(init, log, |log|)
    decreases |log| - from
  {
    if from == |log| {
      forall k ensures Lookup(g, k) == Lookup(At(init, log, |log|), k) {
        assert KeyOk(init, log, from, g, true, k);
      }
      SameTable(g, At(init, log, |log|));
    } else {
      var next, g' := from + 1, Apply(g, log[from]);
      forall k ensures KeyOk(init, log, next, g', true, k) {
        KeyOkApply(init, log, from, g, true, k);
      }
      CatchUp(init, log, next, g');
    }
  }

  lemma SameTable<K(!new), V>(a: map<K, V>, b: map<K, V>)
    requires forall k :: Lookup(a, k) == Lookup(b, k)
    ensures a == b
  {
    forall k ensures (k in a <==> k in b) && (k in a ==> a[k] == b[k]) {
      assert Lookup(a, k) == Lookup(b, k);
    }
  }

  /**
   Replay tolerance: from a wholly copied ghost, rewinding to any earlier
   position and replaying from there ends in the same table as not rewinding.
   */
  lemma RewindReachesSameGhost<K(!new), V>(init: map<K, V>, log: seq<Event<K, V>>, from: nat, rewound: nat,
                                           g: map<K, V>)
    requires ValidLog(init, log) && rewound <= from <= |log|
    requires forall k :: KeyOk(init, log, from, g, true, k)
    ensures ApplyFrom(g, log, rewound) == ApplyFrom(g, log, from) == At(init, log, |log|)
  {
    CatchUp(init, log, from, g);
    forall k ensures KeyOk(init, log, rewound, g, true, k) {
      assert KeyOk(init, log, from, g, true, k);
    }
    CatchUp(init, log, rewound, g);
  }
}
