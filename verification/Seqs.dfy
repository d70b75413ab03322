/** The array operations the screens use (`filter`, `find`, `map`,
    `Math.max(...)`) as functions on sequences, with their properties. */
module Seqs {
  import opened Wrappers

  /** `s.filter(p)`: the elements of `s` that satisfy `p`, in order. */
  function Filter<T>(s: seq<T>, p: T -> bool): (r: seq<T>)
    ensures |r| <= |s|
    ensures forall i :: 0 <= i < |r| ==> r[i] in s && p(r[i])
    ensures forall i :: 0 <= i < |s| && p(s[i]) ==> s[i] in r
  {
    if s == [] then []
    else if p(s[0]) then [s[0]] + Filter(s[1..], p)
    else Filter(s[1..], p)
  }

  /** Filtering keeps every element that satisfies `p` as often as it occurs, and drops
      every other element entirely. */
  lemma {:induction false} FilterMultiplicity<T>(s: seq<T>, p: T -> bool)
    ensures forall i :: 0 <= i < |s| ==> multiset(Filter(s, p))[s[i]] == if p(s[i]) then multiset(s)[s[i]] else 0
  {
    if s != [] {
      FilterMultiplicity(s[1..], p);
      assert s == [s[0]] + s[1..];
      var rest := Filter(s[1..], p);
      if s[0] !in s[1..] {
        assert s[0] !in rest;
      }
    }
  }

  /** `r` can be obtained from `s` by deleting elements (order is kept). */
  predicate IsSubsequence<T(==)>(r: seq<T>, s: seq<T>)
  {
    if r == [] then true
    else if s == [] then false
    else if r[0] == s[0] then IsSubsequence(r[1..], s[1..])
    else IsSubsequence(r, s[1..])
  }

  /** Filtering keeps the surviving elements in their original order. */
  lemma {:induction false} FilterIsSubsequence<T>(s: seq<T>, p: T -> bool)
    ensures IsSubsequence(Filter(s, p), s)
  {
    if s != [] {
      FilterIsSubsequence(s[1..], p);
      var r := Filter(s, p);
      if !p(s[0]) && r != [] {
        assert p(r[0]);
      }
    }
  }

  /** A filter whose predicate holds everywhere returns its input. */
  lemma {:induction false} FilterKeepsAll<T>(s: seq<T>, p: T -> bool)
    requires forall i :: 0 <= i < |s| ==> p(s[i])
    ensures Filter(s, p) == s
  {
    if s != [] {
      FilterKeepsAll(s[1..], p);
    }
  }

  /** A filter whose predicate holds nowhere returns nothing. */
  lemma {:induction false} FilterKeepsNone<T>(s: seq<T>, p: T -> bool)
    requires forall i :: 0 <= i < |s| ==> !p(s[i])
    ensures Filter(s, p) == []
  {
    if s != [] {
      FilterKeepsNone(s[1..], p);
    }
  }

  /** Filtering on `p` and on its negation splits the input in two. */
  lemma {:induction false} FilterComplement<T>(s: seq<T>, p: T -> bool, q: T -> bool)
    requires forall i :: 0 <= i < |s| ==> q(s[i]) == !p(s[i])
    ensures |Filter(s, p)| + |Filter(s, q)| == |s|
  {
    if s != [] {
      FilterComplement(s[1..], p, q);
    }
  }

  /** `s.findIndex(p)` as an option: the first index whose element satisfies `p`. */
  function FirstIndex<T>(s: seq<T>, p: T -> bool): (r: Option<nat>)
    ensures r.Some? ==> r.value < |s| && p(s[r.value])
    ensures r.Some? ==> forall j :: 0 <= j < r.value ==> !p(s[j])
    ensures r.None? <==> forall j :: 0 <= j < |s| ==> !p(s[j])
  {
    if s == [] then None
    else if p(s[0]) then Some(0)
    else match FirstIndex(s[1..], p)
      case None => None
      case Some(k) => Some(k + 1)
  }

  /** `s.find(p)`: the first element that satisfies `p`, if any. */
  function Find<T>(s: seq<T>, p: T -> bool): (r: Option<T>)
    ensures r.Some? ==> r.value in s && p(r.value)
    ensures r.None? <==> forall j :: 0 <= j < |s| ==> !p(s[j])
  {
    match FirstIndex(s, p)
    case None => None
    case Some(i) => Some(s[i])
  }

  /** `s.map(x => p(x) ? f(x) : x)`: replace exactly the elements satisfying `p`. */
  function MapWhere<T>(s: seq<T>, p: T -> bool, f: T -> T): (r: seq<T>)
    ensures |r| == |s|
    ensures forall i :: 0 <= i < |s| && p(s[i]) ==> r[i] == f(s[i])
    ensures forall i :: 0 <= i < |s| && !p(s[i]) ==> r[i] == s[i]
  {
    if s == [] then []
    else [if p(s[0]) then f(s[0]) else s[0]] + MapWhere(s[1..], p, f)
  }

  /** `s.map(f)`. */
  function Map<T, U>(s: seq<T>, f: T -> U): (r: seq<U>)
    ensures |r| == |s|
    ensures forall i :: 0 <= i < |s| ==> r[i] == f(s[i])
  {
    if s == [] then [] else [f(s[0])] + Map(s[1..], f)
  }

  /** Prepending `x` keeps keys distinct exactly when `x`'s key is not already taken. */
  lemma PrependDistinctBy<T>(x: T, s: seq<T>, key: T -> int)
    requires DistinctBy(s, key)
    ensures DistinctBy([x] + s, key) <==> forall i :: 0 <= i < |s| ==> key(s[i]) != key(x)
  {
    var r := [x] + s;
    if forall i :: 0 <= i < |s| ==> key(s[i]) != key(x) {
      forall i, j | 0 <= i < j < |r| ensures key(r[i]) != key(r[j]) {
        assert r[j] == s[j - 1];
        if i > 0 {
          assert r[i] == s[i - 1];
        }
      }
    } else {
      var i :| 0 <= i < |s| && key(s[i]) == key(x);
      assert r[i + 1] == s[i] && r[0] == x;
    }
  }

  /** `ids.length > 0 ? Math.max(...ids) + 1 : 1`: one more than the largest id. */
  function MaxPlusOne(ids: seq<int>): (r: int)
    ensures forall i :: 0 <= i < |ids| ==> ids[i] < r
    ensures ids == [] ==> r == 1
    ensures ids != [] ==> exists i :: 0 <= i < |ids| && r == ids[i] + 1
  {
    if ids == [] then 1
    else if |ids| == 1 then ids[0] + 1
    else
      var rest := MaxPlusOne(ids[1..]);
      if ids[0] + 1 >= rest then ids[0] + 1 else rest
  }

  /** A `<select>` filter: `'all'` or one value. */
  datatype Choice<T> = All | Only(value: T)

  /** `filter === 'all' || x === filter`. */
  predicate Admits<T(==)>(c: Choice<T>, x: T)
  {
    c.All? || c.value == x
  }

  /** No two elements share a key. */
  predicate DistinctBy<T>(s: seq<T>, key: T -> int)
  {
    forall i, j :: 0 <= i < j < |s| ==> key(s[i]) != key(s[j])
  }

  /** `x => key(x) !== k`. */
  function KeyIsNot<T>(key: T -> int, k: int): T -> bool
  {
    (x: T) => key(x) != k
  }

  /** `s.filter(x => key(x) !== k)`: every element with key `k` removed, the rest kept in order. */
  function RemoveKey<T>(s: seq<T>, key: T -> int, k: int): (r: seq<T>)
    ensures |r| <= |s|
    ensures forall i :: 0 <= i < |r| ==> r[i] in s && key(r[i]) != k
    ensures forall i :: 0 <= i < |s| && key(s[i]) != k ==> s[i] in r
    ensures IsSubsequence(r, s)
  {
    FilterIsSubsequence(s, KeyIsNot(key, k));
    Filter(s, KeyIsNot(key, k))
  }

  /** Filtering keeps keys distinct. */
  lemma {:induction false} FilterKeepsDistinctBy<T>(s: seq<T>, p: T -> bool, key: T -> int)
    requires DistinctBy(s, key)
    ensures DistinctBy(Filter(s, p), key)
  {
    if s != [] {
      FilterKeepsDistinctBy(s[1..], p, key);
      var rest := Filter(s[1..], p);
      if p(s[0]) {
        forall j | 0 <= j < |rest| ensures key(s[0]) != key(rest[j]) {
          assert rest[j] in s[1..];
        }
      }
    }
  }

  /** Removing a key keeps the remaining keys distinct. */
  lemma RemoveKeyKeepsDistinct<T>(s: seq<T>, key: T -> int, k: int)
    requires DistinctBy(s, key)
    ensures DistinctBy(RemoveKey(s, key, k), key)
  {
    FilterKeepsDistinctBy(s, KeyIsNot(key, k), key);
  }

  /** With distinct keys, removing a key that occurs removes exactly one element;
      removing one that does not occur removes nothing. */
  lemma RemoveKeyCount<T>(s: seq<T>, key: T -> int, k: int)
    requires DistinctBy(s, key)
    ensures (exists j :: 0 <= j < |s| && key(s[j]) == k) ==> |RemoveKey(s, key, k)| == |s| - 1
    ensures (forall j :: 0 <= j < |s| ==> key(s[j]) != k) ==> RemoveKey(s, key, k) == s
  {
    if exists j :: 0 <= j < |s| && key(s[j]) == k {
      var j :| 0 <= j < |s| && key(s[j]) == k;
      RemoveKeyPresent(s, key, j);
    } else {
      FilterKeepsAll(s, KeyIsNot(key, k));
    }
  }

  lemma {:induction false} RemoveKeyPresent<T>(s: seq<T>, key: T -> int, j: nat)
    requires DistinctBy(s, key) && j < |s|
    ensures |Filter(s, KeyIsNot(key, key(s[j])))| == |s| - 1
  {
    var k := key(s[j]);
    var t := s[1..];
    assert DistinctBy(t, key);
    if j == 0 {
      forall i | 0 <= i < |t| ensures KeyIsNot(key, k)(t[i]) {
        assert t[i] == s[i + 1];
      }
      FilterKeepsAll(t, KeyIsNot(key, k));
    } else {
      assert key(s[0]) != k;
      assert t[j - 1] == s[j];
      RemoveKeyPresent(t, key, j - 1);
    }
  }

  /** No value occurs twice. */
  predicate Distinct<T(==)>(s: seq<T>)
  {
    forall i, j :: 0 <= i < j < |s| ==> s[i] != s[j]
  }

  /** A duplicate-free sequence has as many distinct values as elements. */
  lemma {:induction false} DistinctCardinality<T>(s: seq<T>)
    requires Distinct(s)
    ensures |set x | x in s| == |s|
  {
    if s != [] {
      DistinctCardinality(s[1..]);
      assert (set x | x in s) == (set x | x in s[1..]) + {s[0]};
      assert s[0] !in s[1..];
    }
  }

  /** The integers `lo..hi-1`. */
  function Range(lo: int, hi: int): (r: set<int>)
    ensures forall k :: k in r <==> lo <= k < hi
    decreases hi - lo
  {
    if lo >= hi then {} else {lo} + Range(lo + 1, hi)
  }

  lemma {:induction false} RangeCardinality(lo: int, hi: int)
    requires lo <= hi
    ensures |Range(lo, hi)| == hi - lo
    decreases hi - lo
  {
    if lo < hi {
      RangeCardinality(lo + 1, hi);
      assert lo !in Range(lo + 1, hi);
    }
  }

  /** `n` distinct values drawn from `1..n` are exactly `1..n`. */
  lemma DenseIds(s: seq<int>)
    requires Distinct(s)
    requires forall i :: 0 <= i < |s| ==> 1 <= s[i] <= |s|
    ensures (set x | x in s) == Range(1, |s| + 1)
  {
    var vals := set x | x in s;
    DistinctCardinality(s);
    RangeCardinality(1, |s| + 1);
    assert vals <= Range(1, |s| + 1);
    var missing := Range(1, |s| + 1) - vals;
    assert |missing| == 0;
  }
}
