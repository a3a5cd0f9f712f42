/**
 * Generic sequence operations that stand for the ORM's query operators:
 * a WHERE clause is a Filter, an aggregate Sum is SumBy, an ORDER BY is
 * SortBy, and a primary key or a GROUP BY label is a DistinctBy key.
 */
module Seqs {

  import opened Wrappers

  /** The elements of s that satisfy p, in their original order. */
  function Filter<T(==,!new)>(s: seq<T>, p: T -> bool): (r: seq<T>)
    ensures |r| <= |s|
    ensures forall x :: x in r <==> x in s && p(x)
  {
    if s == [] then [] else (if p(s[0]) then [s[0]] else []) + Filter(s[1..], p)
  }

  /** The sum of f over the elements of s; 0 for an empty s (`Sum(...) or 0`). */
  function SumBy<T>(s: seq<T>, f: T -> int): int
  {
    if s == [] then 0 else f(s[0]) + SumBy(s[1..], f)
  }

  /** The sum of a sequence of numbers. */
  function Sum(xs: seq<int>): int
  {
    if xs == [] then 0 else xs[0] + Sum(xs[1..])
  }

  /** The row predicate `key != k`. */
  function KeyIsNot<T, K(==)>(key: T -> K, k: K): T -> bool
  {
    (x: T) => key(x) != k
  }

  /** The elements of s whose key differs from k (deleting the row with primary key k). */
  function RemoveKey<T(==,!new), K(==)>(s: seq<T>, key: T -> K, k: K): (r: seq<T>)
    ensures forall x :: x in r <==> x in s && key(x) != k
  {
    Filter(s, KeyIsNot(key, k))
  }

  /** The first element of s that satisfies p, if any (a `get` by primary key). */
  function Find<T(==,!new)>(s: seq<T>, p: T -> bool): (r: Option<T>)
    ensures r.Some? ==> r.value in s && p(r.value)
    ensures r.None? <==> forall x :: x in s ==> !p(x)
  {
    if s == [] then None
    else if p(s[0]) then Some(s[0])
    else Find(s[1..], p)
  }

  /** No two elements of s share a key. */
  predicate DistinctBy<T(==,!new), K(==)>(s: seq<T>, key: T -> K)
  {
    s == [] || ((forall x :: x in s[1..] ==> key(x) != key(s[0])) && DistinctBy(s[1..], key))
  }

  /** Keys increase weakly along s. */
  predicate SortedBy<T>(s: seq<T>, key: T -> int)
  {
    forall i, j :: 0 <= i < j < |s| ==> key(s[i]) <= key(s[j])
  }

  /** Inserts x before the first element whose key is not smaller than x's. */
  function Insert<T(==)>(x: T, s: seq<T>, key: T -> int): (r: seq<T>)
    ensures SortedBy(s, key) ==> SortedBy(r, key)
    ensures |r| == |s| + 1
    ensures r[0] == x || (|s| > 0 && r[0] == s[0])
  {
    if s == [] || key(x) <= key(s[0]) then
      assert SortedBy(s, key) ==> SortedBy([x] + s, key) by {
        if SortedBy(s, key) {
          SortedCons(x, s, key);
        }
      }
      [x] + s
    else
      var t := Insert(x, s[1..], key);
      assert s == [s[0]] + s[1..];
      assert SortedBy(s, key) ==> SortedBy([s[0]] + t, key) by {
        if SortedBy(s, key) {
          if |s| > 1 {
            assert key(s[0]) <= key(s[1]);
          }
          SortedCons(s[0], t, key);
        }
      }
      [s[0]] + t
  }

  /** Prepending an element no larger than the head keeps a sequence sorted. */
  lemma SortedCons<T>(h: T, t: seq<T>, key: T -> int)
    requires SortedBy(t, key) && (t == [] || key(h) <= key(t[0]))
    ensures SortedBy([h] + t, key)
  {
    var r := [h] + t;
    forall i, j | 0 <= i < j < |r|
      ensures key(r[i]) <= key(r[j])
    {
      if i == 0 && j > 1 {
        assert r[j] == t[j - 1];
      }
    }
  }

  /** Inserting adds x and keeps every element of s. */
  lemma {:induction false} InsertPermutes<T>(x: T, s: seq<T>, key: T -> int)
    ensures multiset(Insert(x, s, key)) == multiset(s) + multiset{x}
  {
    if s != [] && key(x) > key(s[0]) {
      InsertPermutes(x, s[1..], key);
      assert s == [s[0]] + s[1..];
      assert Insert(x, s, key) == [s[0]] + Insert(x, s[1..], key);
    }
  }

  /** An ORDER BY on key, ascending (an insertion sort). */
  function SortBy<T(==)>(s: seq<T>, key: T -> int): (r: seq<T>)
    ensures multiset(r) == multiset(s)
    ensures SortedBy(r, key)
  {
    if s == [] then []
    else
      assert s == [s[0]] + s[1..];
      InsertPermutes(s[0], SortBy(s[1..], key), key);
      Insert(s[0], SortBy(s[1..], key), key)
  }

  /** The images of the elements of s under f, one after another (a loop of `+=`). */
  function FlatMap<T, U>(s: seq<T>, f: T -> seq<U>): seq<U>
  {
    if s == [] then [] else FlatMap(s[..|s| - 1], f) + f(s[|s| - 1])
  }

  /** Extending a prefix of s by one element appends that element's image. */
  lemma FlatMapSnoc<T, U>(s: seq<T>, f: T -> seq<U>, i: nat)
    requires i < |s|
    ensures FlatMap(s[..i + 1], f) == FlatMap(s[..i], f) + f(s[i])
  {
    var t := s[..i + 1];
    assert t[..|t| - 1] == s[..i] && t[|t| - 1] == s[i];
  }

  /** FlatMap turns concatenation into concatenation. */
  lemma {:induction false} FlatMapAppend<T, U>(a: seq<T>, b: seq<T>, f: T -> seq<U>)
    ensures FlatMap(a + b, f) == FlatMap(a, f) + FlatMap(b, f)
  {
    if b == [] {
      assert a + b == a;
    } else {
      var c := a + b;
      var init := b[..|b| - 1];
      assert c[..|c| - 1] == a + init;
      assert c[|c| - 1] == b[|b| - 1];
      FlatMapAppend(a, init, f);
      var x, y, z := FlatMap(a, f), FlatMap(init, f), f(b[|b| - 1]);
      assert (x + y) + z == x + (y + z);
    }
  }

  lemma {:induction false} FilterAppend<T(!new)>(a: seq<T>, b: seq<T>, p: T -> bool)
    ensures Filter(a + b, p) == Filter(a, p) + Filter(b, p)
  {
    if a == [] {
      assert a + b == b;
    } else {
      assert (a + b)[0] == a[0];
      assert (a + b)[1..] == a[1..] + b;
      FilterAppend(a[1..], b, p);
    }
  }

  /** A filter no element passes is empty (`Sum(...) or 0` then yields 0). */
  lemma {:induction false} FilterNone<T(!new)>(s: seq<T>, p: T -> bool)
    requires forall x :: x in s ==> !p(x)
    ensures Filter(s, p) == []
  {
    if s != [] {
      FilterNone(s[1..], p);
    }
  }

  /** Filtering by p and then by q is filtering once by their conjunction r. */
  lemma {:induction false} FilterFilter<T(!new)>(s: seq<T>, p: T -> bool, q: T -> bool, r: T -> bool)
    requires forall x :: x in s ==> r(x) == (p(x) && q(x))
    ensures Filter(Filter(s, p), q) == Filter(s, r)
  {
    if s != [] {
      assert s[0] in s;
      FilterFilter(s[1..], p, q, r);
      if p(s[0]) {
        var t := [s[0]] + Filter(s[1..], p);
        assert Filter(s, p) == t && t[0] == s[0] && t[1..] == Filter(s[1..], p);
        assert Filter(t, q) == (if q(s[0]) then [s[0]] else []) + Filter(Filter(s[1..], p), q);
      } else {
        assert Filter(s, p) == Filter(s[1..], p);
      }
    }
  }

  lemma {:induction false} SumByAppend<T>(a: seq<T>, b: seq<T>, f: T -> int)
    ensures SumBy(a + b, f) == SumBy(a, f) + SumBy(b, f)
  {
    if a == [] {
      assert a + b == b;
    } else {
      assert (a + b)[0] == a[0];
      assert (a + b)[1..] == a[1..] + b;
      SumByAppend(a[1..], b, f);
    }
  }

  lemma {:induction false} SumByInsert<T>(x: T, s: seq<T>, key: T -> int, f: T -> int)
    ensures SumBy(Insert(x, s, key), f) == f(x) + SumBy(s, f)
  {
    if s != [] && key(x) > key(s[0]) {
      SumByInsert(x, s[1..], key, f);
    }
  }

  /** Sorting does not change a sum. */
  lemma {:induction false} SumBySort<T>(s: seq<T>, key: T -> int, f: T -> int)
    ensures SumBy(SortBy(s, key), f) == SumBy(s, f)
  {
    if s != [] {
      SumBySort(s[1..], key, f);
      SumByInsert(s[0], SortBy(s[1..], key), key, f);
    }
  }

  lemma {:induction false} DistinctByInsert<T(!new), K>(x: T, s: seq<T>, key: T -> int, lab: T -> K)
    requires DistinctBy(s, lab)
    requires forall y :: y in s ==> lab(y) != lab(x)
    ensures DistinctBy(Insert(x, s, key), lab)
  {
    if s != [] && key(x) > key(s[0]) {
      DistinctByInsert(x, s[1..], key, lab);
      var r := Insert(x, s, key);
      assert r[1..] == Insert(x, s[1..], key);
      InsertPermutes(x, s[1..], key);
      forall y | y in r[1..] ensures lab(y) != lab(r[0]) {
        assert y in multiset(s[1..]) + multiset{x};
      }
    }
  }

  /** Sorting keeps keys distinct. */
  lemma {:induction false} DistinctBySort<T(!new), K>(s: seq<T>, key: T -> int, lab: T -> K)
    requires DistinctBy(s, lab)
    ensures DistinctBy(SortBy(s, key), lab)
  {
    if s != [] {
      DistinctBySort(s[1..], key, lab);
      forall y | y in SortBy(s[1..], key) ensures lab(y) != lab(s[0]) {
        assert y in multiset(SortBy(s[1..], key));
      }
      DistinctByInsert(s[0], SortBy(s[1..], key), key, lab);
    }
  }

  /** A filter keeps keys distinct. */
  lemma {:induction false} DistinctByFilter<T(!new), K>(s: seq<T>, p: T -> bool, lab: T -> K)
    requires DistinctBy(s, lab)
    ensures DistinctBy(Filter(s, p), lab)
  {
    if s != [] {
      DistinctByFilter(s[1..], p, lab);
      var rest := Filter(s[1..], p);
      if p(s[0]) {
        var r := [s[0]] + rest;
        assert Filter(s, p) == r && r[1..] == rest;
        forall x | x in rest ensures lab(x) != lab(s[0]) {
          assert x in s[1..];
        }
      } else {
        assert Filter(s, p) == rest;
      }
    }
  }

  /** Distinct keys, stated by position. */
  lemma {:induction false} DistinctByAt<T(!new), K>(s: seq<T>, lab: T -> K, i: nat, j: nat)
    requires DistinctBy(s, lab)
    requires i < j < |s|
    ensures lab(s[i]) != lab(s[j])
  {
    if i == 0 {
      assert s[j] in s[1..];
    } else {
      DistinctByAt(s[1..], lab, i - 1, j - 1);
    }
  }

  /** With distinct keys, a key names at most one element. */
  lemma {:induction false} DistinctByUnique<T(!new), K>(s: seq<T>, key: T -> K, x: T, y: T)
    requires DistinctBy(s, key)
    requires x in s && y in s && key(x) == key(y)
    ensures x == y
  {
    if x != s[0] && y != s[0] {
      DistinctByUnique(s[1..], key, x, y);
    }
  }

  /** With distinct keys, removing key k drops exactly one element when k is present. */
  lemma {:induction false} RemoveKeyLength<T(!new), K>(s: seq<T>, key: T -> K, k: K)
    requires DistinctBy(s, key)
    ensures |RemoveKey(s, key, k)| == if exists x :: x in s && key(x) == k then |s| - 1 else |s|
  {
    if s != [] {
      RemoveKeyLength(s[1..], key, k);
      assert RemoveKey(s, key, k) ==
        (if key(s[0]) != k then [s[0]] else []) + RemoveKey(s[1..], key, k);
      if key(s[0]) == k {
        assert !exists x :: x in s[1..] && key(x) == k;
      } else {
        assert (exists x :: x in s && key(x) == k) <==> (exists x :: x in s[1..] && key(x) == k);
      }
    }
  }
}
