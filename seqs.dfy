/**
 * The list operations the client takes from `Array.prototype`: `filter`,
 * the stable comparator `sort` (stable since ECMAScript 2019) and
 * `slice(0, n)`.
 */
module Seqs {

  /** `s.filter(p)`: the elements satisfying `p`, in their original order. */
  function Filter<T>(s: seq<T>, p: T -> bool): (r: seq<T>)
    ensures |r| <= |s|
    ensures forall i :: 0 <= i < |r| ==> r[i] in s && p(r[i])
    ensures forall i :: 0 <= i < |s| && p(s[i]) ==> s[i] in r
  {
    if s == [] then []
    else if p(s[|s| - 1]) then Filter(s[..|s| - 1], p) + [s[|s| - 1]]
    else Filter(s[..|s| - 1], p)
  }

  lemma {:induction false} FilterAppend<T>(a: seq<T>, b: seq<T>, p: T -> bool)
    ensures Filter(a + b, p) == Filter(a, p) + Filter(b, p)
  {
    if b == [] {
      assert a + b == a;
    } else {
      var b' := b[..|b| - 1];
      assert (a + b)[..|a + b| - 1] == a + b';
      assert (a + b)[|a + b| - 1] == b[|b| - 1];
      FilterAppend(a, b', p);
    }
  }

  /** Appending one element extends the filtered list by that element exactly when it passes. */
  lemma FilterSnoc<T>(s: seq<T>, x: T, p: T -> bool)
    ensures Filter(s + [x], p) == Filter(s, p) + (if p(x) then [x] else [])
  {
    assert (s + [x])[..|s|] == s;
  }

  /** Filtering a sequence with a new first element: the element, if it passes, comes first. */
  lemma {:induction false} FilterCons<T>(x: T, s: seq<T>, p: T -> bool)
    ensures Filter([x] + s, p) == (if p(x) then [x] else []) + Filter(s, p)
    decreases |s|
  {
    if s == [] {
      assert [x] + s == [] + [x];
      FilterSnoc([], x, p);
    } else {
      var init, last := s[..|s| - 1], s[|s| - 1];
      assert s == init + [last];
      assert [x] + s == ([x] + init) + [last];
      FilterSnoc([x] + init, last, p);
      FilterCons(x, init, p);
      FilterSnoc(init, last, p);
    }
  }

  /** Filtering keeps every element that passes and only those, so nothing else is lost. */
  lemma {:induction false} FilterKeepsAll<T>(s: seq<T>, p: T -> bool)
    requires forall i :: 0 <= i < |s| ==> p(s[i])
    ensures Filter(s, p) == s
  {
    if s != [] {
      FilterKeepsAll(s[..|s| - 1], p);
    }
  }

  /** Sort direction of a comparator `(a, b) => key(b) - key(a)` or `key(a) - key(b)`. */
  datatype Direction = Ascending | Descending

  /** `a` may stand before `b` in a list sorted in direction `dir`. */
  predicate InOrder(a: int, b: int, dir: Direction)
  {
    if dir == Ascending then a <= b else a >= b
  }

  ghost predicate SortedBy<T>(s: seq<T>, key: T -> int, dir: Direction)
  {
    forall i, j :: 0 <= i < j < |s| ==> InOrder(key(s[i]), key(s[j]), dir)
  }

  /** Inserts `x` after every element that may precede it (stable insertion). */
  function Insert<T>(s: seq<T>, x: T, key: T -> int, dir: Direction): (r: seq<T>)
    ensures multiset(r) == multiset(s) + multiset{x}
    ensures |r| == |s| + 1
  {
    if s == [] then [x]
    else if InOrder(key(s[|s| - 1]), key(x), dir) then s + [x]
    else
      var r := Insert(s[..|s| - 1], x, key, dir) + [s[|s| - 1]];
      assert s == s[..|s| - 1] + [s[|s| - 1]];
      r
  }

  /** The list a stable sort by `key` in direction `dir` produces. */
  function SortBy<T>(s: seq<T>, key: T -> int, dir: Direction): (r: seq<T>)
    ensures multiset(r) == multiset(s)
    ensures |r| == |s|
  {
    if s == [] then []
    else
      var r := Insert(SortBy(s[..|s| - 1], key, dir), s[|s| - 1], key, dir);
      assert s == s[..|s| - 1] + [s[|s| - 1]];
      r
  }

  /** Inserting an element that may precede `b` into a list whose elements all may precede `b` keeps that so. */
  lemma InsertAllBefore<T>(s: seq<T>, x: T, key: T -> int, dir: Direction, b: int)
    requires forall i :: 0 <= i < |s| ==> InOrder(key(s[i]), b, dir)
    requires InOrder(key(x), b, dir)
    ensures forall i :: 0 <= i < |Insert(s, x, key, dir)| ==> InOrder(key(Insert(s, x, key, dir)[i]), b, dir)
  {
    var r := Insert(s, x, key, dir);
    forall i | 0 <= i < |r| ensures InOrder(key(r[i]), b, dir) {
      assert r[i] in multiset(r);
      if r[i] != x {
        assert r[i] in multiset(s);
        var j :| 0 <= j < |s| && s[j] == r[i];
      }
    }
  }

  lemma {:induction false} InsertSorted<T>(s: seq<T>, x: T, key: T -> int, dir: Direction)
    requires SortedBy(s, key, dir)
    ensures SortedBy(Insert(s, x, key, dir), key, dir)
  {
    if s != [] && !InOrder(key(s[|s| - 1]), key(x), dir) {
      var s' := s[..|s| - 1];
      var last := s[|s| - 1];
      InsertSorted(s', x, key, dir);
      InsertAllBefore(s', x, key, dir, key(last));
      var r' := Insert(s', x, key, dir);
      var r := r' + [last];
      forall i, j | 0 <= i < j < |r| ensures InOrder(key(r[i]), key(r[j]), dir) {
        if j < |r| - 1 {
          assert r[i] == r'[i] && r[j] == r'[j];
        }
      }
    }
  }

  /** A stable sort yields a list ordered by `key`. */
  lemma {:induction false} SortBySorted<T>(s: seq<T>, key: T -> int, dir: Direction)
    ensures SortedBy(SortBy(s, key, dir), key, dir)
  {
    if s != [] {
      SortBySorted(s[..|s| - 1], key, dir);
      InsertSorted(SortBy(s[..|s| - 1], key, dir), s[|s| - 1], key, dir);
    }
  }

  /** The elements of `s` whose key is `v`, in their order in `s`. */
  function SameKey<T>(s: seq<T>, key: T -> int, v: int): (r: seq<T>)
    ensures forall i :: 0 <= i < |r| ==> r[i] in s && key(r[i]) == v
    ensures forall i :: 0 <= i < |s| && key(s[i]) == v ==> s[i] in r
  {
    if s == [] then []
    else if key(s[|s| - 1]) == v then SameKey(s[..|s| - 1], key, v) + [s[|s| - 1]]
    else SameKey(s[..|s| - 1], key, v)
  }

  lemma {:induction false} InsertStable<T>(s: seq<T>, x: T, key: T -> int, dir: Direction, v: int)
    ensures SameKey(Insert(s, x, key, dir), key, v)
         == SameKey(s, key, v) + (if key(x) == v then [x] else [])
  {
    if s == [] {
    } else if InOrder(key(s[|s| - 1]), key(x), dir) {
      assert (s + [x])[..|s|] == s;
    } else {
      var s' := s[..|s| - 1];
      var last := s[|s| - 1];
      var r' := Insert(s', x, key, dir);
      InsertStable(s', x, key, dir, v);
      assert (r' + [last])[..|r'|] == r';
      assert key(last) != key(x);
    }
  }

  /** Stability: among equal keys the sort keeps the original order. */
  lemma {:induction false} SortByStable<T>(s: seq<T>, key: T -> int, dir: Direction, v: int)
    ensures SameKey(SortBy(s, key, dir), key, v) == SameKey(s, key, v)
  {
    if s != [] {
      SortByStable(s[..|s| - 1], key, dir, v);
      InsertStable(SortBy(s[..|s| - 1], key, dir), s[|s| - 1], key, dir, v);
    }
  }

  /** When every key is `v`, the class of `v` is the whole list. */
  lemma {:induction false} SameKeyAll<T>(s: seq<T>, key: T -> int, v: int)
    requires forall i :: 0 <= i < |s| ==> key(s[i]) == v
    ensures SameKey(s, key, v) == s
  {
    if s != [] {
      SameKeyAll(s[..|s| - 1], key, v);
      assert s == s[..|s| - 1] + [s[|s| - 1]];
    }
  }

  /** `s.slice(0, n)`. */
  function Take<T>(s: seq<T>, n: nat): (r: seq<T>)
    ensures |r| == if |s| <= n then |s| else n
    ensures |s| <= n ==> r == s
    ensures r == s[..|r|]
  {
    if |s| <= n then s else s[..n]
  }

  /** Taking a prefix keeps a prefix of every key class. */
  lemma {:induction false} SameKeyPrefix<T>(s: seq<T>, n: nat, key: T -> int, v: int)
    requires n <= |s|
    ensures SameKey(s[..n], key, v) <= SameKey(s, key, v)
  {
    if n < |s| {
      SameKeyPrefix(s[..|s| - 1], n, key, v);
      assert s[..|s| - 1][..n] == s[..n];
    } else {
      assert s[..n] == s;
    }
  }
}
