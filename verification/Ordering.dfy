/**
 ORDER BY and LIMIT on keys: sorting, and the first rows of a union of parts.
 */
module Ordering {
  import opened Keys

  predicate Sorted(s: seq<Key>) {
    forall i, j | 0 <= i < j < |s| :: Leq(s[i], s[j])
  }

  function Merge(a: seq<Key>, b: seq<Key>): seq<Key>
    decreases |a| + |b|
  {
    if a == [] then b
    else if b == [] then a
    else if Leq(a[0], b[0]) then [a[0]] + Merge(a[1..], b)
    else [b[0]] + Merge(a, b[1..])
  }

  /** The rows of a query with ORDER BY: a sorted permutation of its rows. */
  function Sort(s: seq<Key>): seq<Key> {
    if s == [] then [] else Merge([s[0]], Sort(s[1..]))
  }

  function Take(s: seq<Key>, n: nat): seq<Key> {
    if n <= |s| then s[..n] else s
  }

  // ----- sorting

  lemma SplitHead(s: seq<Key>)
    requires s != []
    ensures multiset(s) == multiset{s[0]} + multiset(s[1..])
  {
    assert s == [s[0]] + s[1..];
  }

  lemma {:induction false} MergeCounts(a: seq<Key>, b: seq<Key>)
    ensures multiset(Merge(a, b)) == multiset(a) + multiset(b)
    decreases |a| + |b|
  {
    if a != [] && b != [] {
      if Leq(a[0], b[0]) {
        MergeCounts(a[1..], b);
        SplitHead(a);
      } else {
        MergeCounts(a, b[1..]);
        SplitHead(b);
      }
    }
  }

  /** `k` comes before every key of `s`. */
  predicate Heads(k: Key, s: seq<Key>) {
    forall x | x in s :: Leq(k, x)
  }

  lemma SortedHead(s: seq<Key>)
    requires Sorted(s) && s != []
    ensures Heads(s[0], s) && Sorted(s[1..])
  {
  }

  lemma HeadsSorted(k: Key, s: seq<Key>)
    requires Sorted(s) && Heads(k, s)
    ensures Sorted([k] + s)
  {
    var t := [k] + s;
    forall i, j | 0 <= i < j < |t| ensures Leq(t[i], t[j]) {
      assert t[j] == s[j - 1] && (i > 0 ==> t[i] == s[i - 1]);
    }
  }

  lemma HeadsMore(k: Key, h: Key, s: seq<Key>)
    requires Leq(k, h) && Heads(h, s)
    ensures Heads(k, s)
  {
    forall x | x in s ensures Leq(k, x) {
      LeqTransitive(k, h, x);
    }
  }

  lemma HeadsSame(k: Key, s: seq<Key>, t: seq<Key>, u: seq<Key>)
    requires Heads(k, s) && Heads(k, t) && multiset(u) == multiset(s) + multiset(t)
    ensures Heads(k, u)
  {
    forall x | x in u ensures Leq(k, x) {
      assert x in multiset(u);
    }
  }

  lemma {:induction false} MergeSorted(a: seq<Key>, b: seq<Key>)
    requires Sorted(a) && Sorted(b)
    ensures Sorted(Merge(a, b))
    decreases |a| + |b|
  {
    if a != [] && b != [] {
      SortedHead(a);
      SortedHead(b);
      if Leq(a[0], b[0]) {
        MergeStep(a[0], a[1..], b[0], b);
        MergeSorted(a[1..], b);
        MergeCounts(a[1..], b);
        HeadsSame(a[0], a[1..], b, Merge(a[1..], b));
        HeadsSorted(a[0], Merge(a[1..], b));
      } else {
        LessTotal(a[0], b[0]);
        MergeStep(b[0], b[1..], a[0], a);
        MergeSorted(a, b[1..]);
        MergeCounts(a, b[1..]);
        HeadsSame(b[0], a, b[1..], Merge(a, b[1..]));
        HeadsSorted(b[0], Merge(a, b[1..]));
      }
    }
  }

  lemma MergeStep(k: Key, rest: seq<Key>, h: Key, other: seq<Key>)
    requires Heads(k, [k] + rest) && Leq(k, h) && Heads(h, other)
    ensures Heads(k, rest) && Heads(k, other)
  {
    HeadsMore(k, h, other);
    forall x | x in rest ensures Leq(k, x) {
      assert x in [k] + rest;
    }
  }

  lemma {:induction false} SortSorts(s: seq<Key>)
    ensures Sorted(Sort(s)) && multiset(Sort(s)) == multiset(s)
  {
    if s != [] {
      SortSorts(s[1..]);
      MergeSorted([s[0]], Sort(s[1..]));
      MergeCounts([s[0]], Sort(s[1..]));
      SplitHead(s);
    }
  }

  lemma SameLeast(a: seq<Key>, b: seq<Key>)
    requires Sorted(a) && Sorted(b) && multiset(a) == multiset(b) && a != [] && b != []
    ensures a[0] == b[0]
  {
    SortedHead(a);
    SortedHead(b);
    assert a[0] in multiset(b) && b[0] in multiset(a);
    LeqAntisymmetric(a[0], b[0]);
  }

  lemma SameRest(a: seq<Key>, b: seq<Key>)
    requires multiset(a) == multiset(b) && a != [] && b != [] && a[0] == b[0]
    ensures multiset(a[1..]) == multiset(b[1..])
  {
    SplitHead(a);
    SplitHead(b);
    assert multiset(a[1..]) == multiset(a) - multiset{a[0]};
  }

  lemma {:induction false} SortedIsUnique(a: seq<Key>, b: seq<Key>)
    requires Sorted(a) && Sorted(b) && multiset(a) == multiset(b)
    ensures a == b
  {
    assert |a| == |multiset(a)| == |multiset(b)| == |b|;
    if a != [] {
      SameLeast(a, b);
      SameRest(a, b);
      SortedIsUnique(a[1..], b[1..]);
      assert a == [a[0]] + a[1..] && b == [b[0]] + b[1..];
    }
  }

  /** The order of a query's rows depends only on which rows there are. */
  lemma SortOfSame(s: seq<Key>, t: seq<Key>)
    requires multiset(s) == multiset(t)
    ensures Sort(s) == Sort(t)
  {
    SortSorts(s);
    SortSorts(t);
    SortedIsUnique(Sort(s), Sort(t));
  }

  lemma SortOfSorted(s: seq<Key>)
    requires Sorted(s)
    ensures Sort(s) == s
  {
    SortSorts(s);
    SortedIsUnique(Sort(s), s);
  }

  lemma SortOfUnion(s: seq<Key>, t: seq<Key>)
    ensures Sort(s + t) == Merge(Sort(s), Sort(t))
  {
    SortSorts(s);
    SortSorts(t);
    SortSorts(s + t);
    MergeSorted(Sort(s), Sort(t));
    MergeCounts(Sort(s), Sort(t));
    SortedIsUnique(Sort(s + t), Merge(Sort(s), Sort(t)));
  }

  // ----- the first rows of a union

  lemma TakeHead(k: Key, s: seq<Key>, n: nat)
    ensures Take([k] + s, n + 1) == [k] + Take(s, n)
  {
  }

  lemma TakeTail(s: seq<Key>, m: nat)
    requires s != [] && m > 0
    ensures Take(s, m) != [] && Take(s, m)[0] == s[0] && Take(s, m)[1..] == Take(s[1..], m - 1)
  {
  }

  /** Only the first `n` rows of each side can be among the first `n` rows of a union. */
  lemma {:induction false} MergeTake(a: seq<Key>, b: seq<Key>, m: nat, l: nat, n: nat)
    requires n <= m && n <= l
    ensures Take(Merge(a, b), n) == Take(Merge(Take(a, m), Take(b, l)), n)
    decreases n
  {
    if a != [] && b != [] && n > 0 {
      var x, y := Take(a, m), Take(b, l);
      TakeTail(a, m);
      TakeTail(b, l);
      if Leq(a[0], b[0]) {
        MergeTake(a[1..], b, m - 1, l, n - 1);
        TakeHead(a[0], Merge(a[1..], b), n - 1);
        TakeHead(a[0], Merge(x[1..], y), n - 1);
      } else {
        MergeTake(a, b[1..], m, l - 1, n - 1);
        TakeHead(b[0], Merge(a, b[1..]), n - 1);
        TakeHead(b[0], Merge(x, y[1..]), n - 1);
      }
    }
  }

  function Concat(parts: seq<seq<Key>>): seq<Key> {
    if parts == [] then [] else parts[0] + Concat(parts[1..])
  }

  /** The same parts, each ordered and limited to `n` rows. */
  function Limited(parts: seq<seq<Key>>, n: nat): seq<Key> {
    if parts == [] then [] else Take(Sort(parts[0]), n) + Limited(parts[1..], n)
  }

  lemma TakeSorted(s: seq<Key>, n: nat)
    requires Sorted(s)
    ensures Sorted(Take(s, n)) && Take(Take(s, n), n) == Take(s, n)
  {
  }

  /** Limiting every part of a union to `n` rows leaves the first `n` rows of the union as they are. */
  lemma {:induction false} LimitedUnion(parts: seq<seq<Key>>, n: nat)
    ensures Take(Sort(Limited(parts, n)), n) == Take(Sort(Concat(parts)), n)
  {
    if parts != [] {
      var p, rest, limited := Sort(parts[0]), Concat(parts[1..]), Limited(parts[1..], n);
      LimitedUnion(parts[1..], n);
      SortSorts(parts[0]);
      TakeSorted(p, n);
      SortOfSorted(Take(p, n));
      SortOfUnion(parts[0], rest);
      SortOfUnion(Take(p, n), limited);
      MergeTake(p, Sort(rest), n, n, n);
      MergeTake(Take(p, n), Sort(limited), n, n, n);
    }
  }
}
