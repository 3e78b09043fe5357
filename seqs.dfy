/** Sequence helpers: the `filter` of the handlers and the per-user index lists of the store. */
module Seqs {

  /** Order-preserving filter, as `Array.prototype.filter`. */
  function Filter<T(==,!new)>(s: seq<T>, keep: T -> bool): (r: seq<T>)
    ensures |r| <= |s|
    ensures forall x :: x in r <==> x in s && keep(x)
  {
    if s == [] then []
    else
      var rest := Filter(s[1..], keep);
      assert s == [s[0]] + s[1..];
      if keep(s[0]) then [s[0]] + rest else rest
  }

  /** Filtering keeps every passing element as often as it occurs and drops every other. */
  lemma {:induction false} FilterCount<T(!new)>(s: seq<T>, keep: T -> bool)
    ensures forall x :: multiset(Filter(s, keep))[x] == if keep(x) then multiset(s)[x] else 0
  {
    if s != [] {
      FilterCount(s[1..], keep);
      assert s == [s[0]] + s[1..];
    }
  }

  /** `r` can be obtained from `s` by deleting elements, without reordering. */
  predicate IsSubsequence<T(==)>(r: seq<T>, s: seq<T>)
    decreases |s|
  {
    if r == [] then true
    else if s == [] then false
    else if r[0] == s[0] then IsSubsequence(r[1..], s[1..])
    else IsSubsequence(r, s[1..])
  }

  /** Filtering keeps the survivors in their original order. */
  lemma {:induction false} FilterIsSubsequence<T(!new)>(s: seq<T>, keep: T -> bool)
    ensures IsSubsequence(Filter(s, keep), s)
  {
    if s != [] {
      FilterIsSubsequence(s[1..], keep);
      var rest := Filter(s[1..], keep);
      if !keep(s[0]) && rest != [] {
        assert rest[0] in rest;
        assert rest[0] != s[0];
      }
    }
  }

  /** Filtering with a test every element passes changes nothing. */
  lemma {:induction false} FilterKeepsAll<T(!new)>(s: seq<T>, keep: T -> bool)
    requires forall x :: x in s ==> keep(x)
    ensures Filter(s, keep) == s
  {
    if s != [] {
      FilterKeepsAll(s[1..], keep);
    }
  }

  /** Filtering a concatenation filters each part. */
  lemma {:induction false} FilterAppend<T(!new)>(s: seq<T>, t: seq<T>, keep: T -> bool)
    ensures Filter(s + t, keep) == Filter(s, keep) + Filter(t, keep)
  {
    if s == [] {
      assert s + t == t;
    } else {
      var st := s + t;
      assert st[0] == s[0] && st[1..] == s[1..] + t;
      FilterAppend(s[1..], t, keep);
      assert Filter(st, keep) == (if keep(s[0]) then [s[0]] else []) + Filter(st[1..], keep);
      assert Filter(s, keep) == (if keep(s[0]) then [s[0]] else []) + Filter(s[1..], keep);
    }
  }

  /** A per-user list as the handlers read it: `await kv.get(key) || []`. */
  function Lookup<T>(m: map<string, seq<T>>, k: string): (r: seq<T>)
    ensures k !in m ==> r == []
    ensures k in m ==> r == m[k]
  {
    if k in m then m[k] else []
  }

  /** Read a list, `push` one entry and write it back. */
  function Append<T>(m: map<string, seq<T>>, k: string, x: T): (r: map<string, seq<T>>)
    ensures r.Keys == m.Keys + {k}
    ensures Lookup(r, k) == Lookup(m, k) + [x]
    ensures forall u :: u != k ==> Lookup(r, u) == Lookup(m, u)
  {
    m[k := Lookup(m, k) + [x]]
  }

  /** The ids of a list that have a stored record: `null` lookups dropped, list order and repeats kept. */
  function Resolvable<V>(ids: seq<string>, m: map<string, V>): (found: seq<string>)
    ensures |found| <= |ids|
    ensures forall k :: k in found <==> k in ids && k in m
    ensures IsSubsequence(found, ids)
    ensures forall k :: multiset(found)[k] == if k in m then multiset(ids)[k] else 0
    ensures (forall k :: k in ids ==> k in m) ==> found == ids
  {
    var resolves := k => k in m;
    FilterIsSubsequence(ids, resolves);
    FilterCount(ids, resolves);
    if forall k :: k in ids ==> k in m then
      FilterKeepsAll(ids, resolves);
      Filter(ids, resolves)
    else
      Filter(ids, resolves)
  }

  /** Read a list, `unshift` one entry and write it back. */
  function Prepend<T>(m: map<string, seq<T>>, k: string, x: T): (r: map<string, seq<T>>)
    ensures r.Keys == m.Keys + {k}
    ensures Lookup(r, k) == [x] + Lookup(m, k)
    ensures forall u :: u != k ==> Lookup(r, u) == Lookup(m, u)
  {
    m[k := [x] + Lookup(m, k)]
  }
}
