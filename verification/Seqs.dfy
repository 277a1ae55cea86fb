/** Sums, filters and the stable sort over sequences that the models below share. */
module Seqs {

  datatype Option<+T> = None | Some(value: T)

  datatype Result<+T, +E> = Ok(value: T) | Err(error: E)

  function Min(a: int, b: int): int { if a <= b then a else b }

  /** `rows` is what a query over the keys returns: all of them, and nothing else. */
  ghost predicate Lists(rows: seq<int>, keys: set<int>) { forall x :: x in rows <==> x in keys }

  function Max(a: int, b: int): int { if a <= b then b else a }

  // ---------------------------------------------------------------- sums

  function Total<T>(s: seq<T>, f: T -> int): int {
    if s == [] then 0 else Total(s[..|s| - 1], f) + f(s[|s| - 1])
  }

  lemma {:induction false} TotalAppend<T>(s: seq<T>, t: seq<T>, f: T -> int)
    ensures Total(s + t, f) == Total(s, f) + Total(t, f)
  {
    if t == [] {
      assert s + t == s;
    } else {
      assert (s + t)[..|s + t| - 1] == s + t[..|t| - 1];
      TotalAppend(s, t[..|t| - 1], f);
    }
  }

  lemma TotalSnoc<T>(s: seq<T>, x: T, f: T -> int)
    ensures Total(s + [x], f) == Total(s, f) + f(x)
  {
  }

  lemma {:induction false} TotalUpdate<T>(s: seq<T>, i: nat, x: T, f: T -> int)
    requires i < |s|
    ensures Total(s[i := x], f) == Total(s, f) - f(s[i]) + f(x)
  {
    var n := |s| - 1;
    if i == n {
      assert s[i := x][..n] == s[..n];
    } else {
      assert s[i := x][..n] == s[..n][i := x];
      TotalUpdate(s[..n], i, x, f);
    }
  }

  lemma {:induction false} TotalSame<T>(s: seq<T>, f: T -> int, g: T -> int)
    requires forall i :: 0 <= i < |s| ==> f(s[i]) == g(s[i])
    ensures Total(s, f) == Total(s, g)
  {
    if s != [] {
      TotalSame(s[..|s| - 1], f, g);
    }
  }

  /** A sum of non-negative terms is non-negative and at least each of its terms. */
  lemma {:induction false} TotalNonneg<T>(s: seq<T>, f: T -> int)
    requires forall i :: 0 <= i < |s| ==> f(s[i]) >= 0
    ensures Total(s, f) >= 0
    ensures forall i :: 0 <= i < |s| ==> f(s[i]) <= Total(s, f)
  {
    if s != [] {
      var t := s[..|s| - 1];
      TotalNonneg(t, f);
      forall i | 0 <= i < |s| ensures f(s[i]) <= Total(s, f) {
        if i < |t| { assert f(t[i]) <= Total(t, f); }
      }
    }
  }

  lemma {:induction false} TotalZero<T>(s: seq<T>, f: T -> int)
    requires forall i :: 0 <= i < |s| ==> f(s[i]) == 0
    ensures Total(s, f) == 0
  {
    if s != [] {
      TotalZero(s[..|s| - 1], f);
    }
  }

  lemma {:induction false} TotalAdd<T>(s: seq<T>, f: T -> int, g: T -> int, h: T -> int)
    requires forall i :: 0 <= i < |s| ==> h(s[i]) == f(s[i]) + g(s[i])
    ensures Total(s, h) == Total(s, f) + Total(s, g)
  {
    if s != [] {
      TotalAdd(s[..|s| - 1], f, g, h);
    }
  }

  lemma {:induction false} TotalLe<T>(s: seq<T>, f: T -> int, g: T -> int)
    requires forall i :: 0 <= i < |s| ==> f(s[i]) <= g(s[i])
    ensures Total(s, f) <= Total(s, g)
  {
    if s != [] {
      TotalLe(s[..|s| - 1], f, g);
    }
  }

  lemma TotalRemove<T>(a: seq<T>, x: T, b: seq<T>, f: T -> int)
    ensures Total(a + [x] + b, f) == Total(a + b, f) + f(x)
  {
    TotalAppend(a + [x], b, f);
    TotalSnoc(a, x, f);
    TotalAppend(a, b, f);
  }

  /** A sum depends on the multiset of the terms only, not on their order. */
  lemma {:induction false} TotalPermutation<T>(s: seq<T>, t: seq<T>, f: T -> int)
    requires multiset(s) == multiset(t)
    ensures Total(s, f) == Total(t, f)
  {
    if s == [] {
      assert |multiset(t)| == 0;
    } else {
      var n := |s| - 1;
      var x := s[n];
      assert s == s[..n] + [x];
      assert x in multiset(s);
      assert x in t;
      var i: nat :| i < |t| && t[i] == x;
      var u, v := t[..i], t[i + 1..];
      assert t == u + [x] + v;
      assert multiset(s[..n] + [x]) == multiset((u + v) + [x]);
      DropLastMultiset(s[..n], u + v, x);
      TotalPermutation(s[..n], u + v, f);
      TotalRemove(u, x, v, f);
    }
  }

  // ---------------------------------------------------------------- filters

  function Filter<T(!new)>(s: seq<T>, p: T -> bool): (r: seq<T>)
    ensures forall x :: x in r <==> x in s && p(x)
    ensures |r| <= |s|
  {
    if s == [] then []
    else
      var rest := Filter(s[..|s| - 1], p);
      assert s == s[..|s| - 1] + [s[|s| - 1]];
      if p(s[|s| - 1]) then rest + [s[|s| - 1]] else rest
  }

  lemma FilterNone<T(!new)>(p: T -> bool)
    ensures Filter([], p) == []
  {
  }

  lemma FilterSnoc<T(!new)>(s: seq<T>, x: T, p: T -> bool)
    ensures Filter(s + [x], p) == if p(x) then Filter(s, p) + [x] else Filter(s, p)
  {
  }

  lemma {:induction false} FilterAppend<T(!new)>(s: seq<T>, t: seq<T>, p: T -> bool)
    ensures Filter(s + t, p) == Filter(s, p) + Filter(t, p)
  {
    if t == [] {
      assert s + t == s;
    } else {
      assert (s + t)[..|s + t| - 1] == s + t[..|t| - 1];
      FilterAppend(s, t[..|t| - 1], p);
    }
  }

  lemma {:induction false} TotalFilter<T(!new)>(s: seq<T>, p: T -> bool, f: T -> int, g: T -> int)
    requires forall i :: 0 <= i < |s| ==> g(s[i]) == if p(s[i]) then f(s[i]) else 0
    ensures Total(Filter(s, p), f) == Total(s, g)
  {
    if s != [] {
      var t := s[..|s| - 1];
      TotalFilter(t, p, f, g);
      if p(s[|s| - 1]) { TotalSnoc(Filter(t, p), s[|s| - 1], f); }
    }
  }

  lemma {:induction false} FilterSame<T(!new)>(s: seq<T>, p: T -> bool, q: T -> bool)
    requires forall i :: 0 <= i < |s| ==> p(s[i]) == q(s[i])
    ensures Filter(s, p) == Filter(s, q)
  {
    if s != [] {
      FilterSame(s[..|s| - 1], p, q);
    }
  }

  predicate DistinctBy<T>(s: seq<T>, key: T -> int) {
    forall i, j :: 0 <= i < j < |s| ==> key(s[i]) != key(s[j])
  }

  /** Filtering keeps elements with pairwise different keys pairwise different. */
  lemma {:induction false} FilterDistinct<T(!new)>(s: seq<T>, p: T -> bool, key: T -> int)
    requires DistinctBy(s, key)
    ensures DistinctBy(Filter(s, p), key)
  {
    if s != [] {
      var t := s[..|s| - 1];
      var last := s[|s| - 1];
      assert DistinctBy(t, key);
      FilterDistinct(t, p, key);
      var r := Filter(t, p);
      forall i | 0 <= i < |r| ensures key(r[i]) != key(last) {
        assert r[i] in t;
        var k :| 0 <= k < |t| && t[k] == r[i];
        assert s[k] == t[k];
      }
      assert DistinctBy(r + [last], key);
    }
  }

  lemma DistinctElements<T>(s: seq<T>, key: T -> int, x: T, y: T)
    requires DistinctBy(s, key) && x in s && y in s && x != y
    ensures key(x) != key(y)
  {
  }

  /** A permutation of elements with pairwise different keys has pairwise different keys. */
  lemma PermutationDistinct<T(!new)>(s: seq<T>, t: seq<T>, key: T -> int)
    requires DistinctBy(s, key) && multiset(s) == multiset(t)
    ensures DistinctBy(t, key)
  {
    InMultiset(s, t);
    forall i, j | 0 <= i < j < |t| ensures key(t[i]) != key(t[j]) {
      var x, y := t[i], t[j];
      assert x in t && y in t;
      if x != y {
        DistinctElements(s, key, x, y);
      } else {
        TwiceInSequence(t, i, j);
        OnceInDistinct(s, key, x);
      }
    }
  }

  lemma TwiceInSequence<T>(t: seq<T>, i: nat, j: nat)
    requires i < j < |t| && t[i] == t[j]
    ensures multiset(t)[t[i]] >= 2
  {
    assert t == t[..j] + [t[j]] + t[j + 1..];
    assert t[..j][i] == t[i];
  }

  lemma {:induction false} OnceInDistinct<T>(s: seq<T>, key: T -> int, x: T)
    requires DistinctBy(s, key)
    ensures multiset(s)[x] <= 1
  {
    if s != [] {
      var rest, last := s[..|s| - 1], s[|s| - 1];
      assert s == rest + [last];
      OnceInDistinct(rest, key, x);
      if last == x {
        forall i | 0 <= i < |rest| ensures rest[i] != x { assert key(s[i]) != key(last); }
        assert x !in multiset(rest);
      }
    }
  }

  // ---------------------------------------------------------------- stable sort

  /** `lt` is a strict weak order: "not greater" is a total preorder. */
  ghost predicate StrictWeak<T(!new)>(lt: (T, T) -> bool) {
    && (forall x, y :: lt(x, y) ==> !lt(y, x))
    && (forall x, y, z {:trigger lt(x, y), lt(y, z)} :: !lt(x, y) && !lt(y, z) ==> !lt(x, z))
  }

  predicate Sorted<T>(s: seq<T>, lt: (T, T) -> bool) {
    forall i, j :: 0 <= i < j < |s| ==> !lt(s[j], s[i])
  }

  /** Puts `x` behind every element that is not greater than it. */
  function Insert<T>(x: T, s: seq<T>, lt: (T, T) -> bool): (r: seq<T>)
    ensures multiset(r) == multiset(s) + multiset{x}
    ensures |r| == |s| + 1
  {
    if s != [] && lt(x, s[|s| - 1]) then
      assert s == s[..|s| - 1] + [s[|s| - 1]];
      Insert(x, s[..|s| - 1], lt) + [s[|s| - 1]]
    else s + [x]
  }

  /** The sort Python's `sorted` performs: equal elements keep their input order. */
  function Sort<T>(s: seq<T>, lt: (T, T) -> bool): (r: seq<T>)
    ensures multiset(r) == multiset(s)
    ensures |r| == |s|
  {
    if s == [] then []
    else
      assert s == s[..|s| - 1] + [s[|s| - 1]];
      Insert(s[|s| - 1], Sort(s[..|s| - 1], lt), lt)
  }

  lemma SortNone<T>(lt: (T, T) -> bool)
    ensures Sort([], lt) == []
  {
  }

  lemma SortSnoc<T>(s: seq<T>, x: T, lt: (T, T) -> bool)
    ensures Sort(s + [x], lt) == Insert(x, Sort(s, lt), lt)
  {
    assert (s + [x])[..|s|] == s;
  }

  lemma InMultiset<T(!new)>(s: seq<T>, t: seq<T>)
    requires multiset(s) == multiset(t)
    ensures forall x :: x in s <==> x in t
  {
    forall x ensures x in s <==> x in t {
      assert x in s <==> x in multiset(s);
      assert x in t <==> x in multiset(t);
    }
  }

  lemma SortedSnoc<T(!new)>(s: seq<T>, x: T, lt: (T, T) -> bool)
    requires Sorted(s, lt) && forall y :: y in s ==> !lt(x, y)
    ensures Sorted(s + [x], lt)
  {
  }

  lemma {:induction false} InsertSorted<T(!new)>(x: T, s: seq<T>, lt: (T, T) -> bool)
    requires StrictWeak(lt) && Sorted(s, lt)
    ensures Sorted(Insert(x, s, lt), lt)
  {
    if s != [] {
      var n := |s| - 1;
      var last := s[n];
      if lt(x, last) {
        InsertSorted(x, s[..n], lt);
        var r := Insert(x, s[..n], lt);
        forall y | y in r ensures !lt(last, y) {
          assert y in multiset(r);
          assert y == x || y in s[..n];
        }
        SortedSnoc(r, last, lt);
      } else {
        forall y | y in s ensures !lt(x, y) {
          assert y == last || !lt(last, y);
        }
        SortedSnoc(s, x, lt);
      }
    }
  }

  lemma {:induction false} SortSorted<T(!new)>(s: seq<T>, lt: (T, T) -> bool)
    requires StrictWeak(lt)
    ensures Sorted(Sort(s, lt), lt)
  {
    if s != [] {
      SortSorted(s[..|s| - 1], lt);
      InsertSorted(s[|s| - 1], Sort(s[..|s| - 1], lt), lt);
    }
  }

  lemma SortedSameLast<T(!new)>(s: seq<T>, t: seq<T>, lt: (T, T) -> bool)
    requires s != [] && t != []
    requires Sorted(s, lt) && Sorted(t, lt) && multiset(s) == multiset(t)
    requires forall x, y :: x in s && y in s && x != y ==> lt(x, y) || lt(y, x)
    ensures s[|s| - 1] == t[|t| - 1]
  {
    InMultiset(s, t);
    var x, y := s[|s| - 1], t[|t| - 1];
    assert x in t && y in s;
    var i :| 0 <= i < |t| && t[i] == x;
    var j :| 0 <= j < |s| && s[j] == y;
    assert i < |t| - 1 ==> !lt(y, t[i]);
    assert j < |s| - 1 ==> !lt(x, s[j]);
  }

  lemma SortedInit<T>(s: seq<T>, lt: (T, T) -> bool)
    requires s != [] && Sorted(s, lt)
    ensures Sorted(s[..|s| - 1], lt)
  {
  }

  lemma DropLastMultiset<T>(s: seq<T>, t: seq<T>, x: T)
    requires multiset(s + [x]) == multiset(t + [x])
    ensures multiset(s) == multiset(t)
  {
    assert multiset(s + [x]) == multiset(s) + multiset{x};
    assert multiset(t + [x]) == multiset(t) + multiset{x};
    assert multiset(s) == multiset(s + [x]) - multiset{x};
  }

  /** Sorted sequences of the same elements are equal when the order separates the elements. */
  lemma {:induction false} SortedUnique<T(!new)>(s: seq<T>, t: seq<T>, lt: (T, T) -> bool)
    requires Sorted(s, lt) && Sorted(t, lt) && multiset(s) == multiset(t)
    requires forall x, y :: x in s && y in s && x != y ==> lt(x, y) || lt(y, x)
    ensures s == t
  {
    hide Sorted;
    assert |multiset(s)| == |s| && |multiset(t)| == |t|;
    if s != [] {
      SortedSameLast(s, t, lt);
      var n := |s| - 1;
      SortedInit(s, lt);
      SortedInit(t, lt);
      assert s == s[..n] + [s[n]] && t == t[..n] + [s[n]];
      DropLastMultiset(s[..n], t[..n], s[n]);
      SortedUnique(s[..n], t[..n], lt);
    }
  }

  /** Sorting any permutation of elements that the order separates gives one result. */
  lemma SortPermutation<T(!new)>(s: seq<T>, t: seq<T>, lt: (T, T) -> bool)
    requires StrictWeak(lt) && multiset(s) == multiset(t)
    requires forall x, y :: x in s && y in s && x != y ==> lt(x, y) || lt(y, x)
    ensures Sort(s, lt) == Sort(t, lt)
  {
    SortSorted(s, lt);
    SortSorted(t, lt);
    InMultiset(s, Sort(s, lt));
    SortedUnique(Sort(s, lt), Sort(t, lt), lt);
  }

  lemma {:induction false} FilterInsert<T(!new)>(x: T, s: seq<T>, lt: (T, T) -> bool, p: T -> bool)
    requires StrictWeak(lt) && Sorted(s, lt)
    ensures Filter(Insert(x, s, lt), p) == if p(x) then Insert(x, Filter(s, p), lt) else Filter(s, p)
  {
    hide Filter, Insert, StrictWeak, Sorted;
    if s == [] {
      InsertLast(x, s, lt);
      FilterNone(p);
      FilterSnoc(s, x, p);
      InsertLast(x, Filter(s, p), lt);
    } else {
      var t, last := s[..|s| - 1], s[|s| - 1];
      assert s == t + [last];
      if lt(x, last) {
        SortedInit(s, lt);
        FilterInsert(x, t, lt, p);
        InsertBefore(x, t, last, lt);
        FilterSnoc(Insert(x, t, lt), last, p);
        FilterSnoc(t, last, p);
        InsertBefore(x, Filter(t, p), last, lt);
      } else {
        NoneAfter(x, s, lt);
        InsertLast(x, s, lt);
        FilterSnoc(s, x, p);
        InsertLast(x, Filter(s, p), lt);
      }
    }
  }

  lemma InsertLast<T>(x: T, s: seq<T>, lt: (T, T) -> bool)
    requires s == [] || !lt(x, s[|s| - 1])
    ensures Insert(x, s, lt) == s + [x]
  {
  }

  lemma InsertBefore<T>(x: T, s: seq<T>, last: T, lt: (T, T) -> bool)
    requires lt(x, last)
    ensures Insert(x, s + [last], lt) == Insert(x, s, lt) + [last]
  {
    assert (s + [last])[..|s|] == s;
  }

  /** What is not before the last of a sorted sequence is before none of it. */
  lemma NoneAfter<T(!new)>(x: T, s: seq<T>, lt: (T, T) -> bool)
    requires StrictWeak(lt) && Sorted(s, lt) && s != [] && !lt(x, s[|s| - 1])
    ensures forall y :: y in s ==> !lt(x, y)
  {
    forall y | y in s ensures !lt(x, y) {
      var i :| 0 <= i < |s| && s[i] == y;
      assert i < |s| - 1 ==> !lt(s[|s| - 1], s[i]);
    }
  }

  /** Dropping elements commutes with the stable sort. */
  lemma {:induction false} FilterSort<T(!new)>(s: seq<T>, lt: (T, T) -> bool, p: T -> bool)
    requires StrictWeak(lt)
    ensures Filter(Sort(s, lt), p) == Sort(Filter(s, p), lt)
  {
    if s != [] {
      var t := s[..|s| - 1];
      FilterSort(t, lt, p);
      SortSorted(t, lt);
      FilterInsert(s[|s| - 1], Sort(t, lt), lt, p);
      if p(s[|s| - 1]) {
        assert (Filter(t, p) + [s[|s| - 1]])[..|Filter(t, p)|] == Filter(t, p);
      }
    }
  }
}
