/**
 * Stable ordering by an integer key. The services order query results with
 * `orderBy` (queue position, start time, creation time) and the report sorts
 * actors by count; all of them are modelled as this one sort, with a negated
 * key for descending order.
 */
module Sorting {
  import opened Base

  ghost predicate SortedBy<T>(s: seq<T>, key: T -> int) {
    forall i, j :: 0 <= i < j < |s| ==> key(s[i]) <= key(s[j])
  }

  /** Insert `x` in front of every element whose key is not smaller. */
  function Insert<T(==)>(x: T, s: seq<T>, key: T -> int): (r: seq<T>)
    requires SortedBy(s, key)
    ensures SortedBy(r, key)
    ensures multiset(r) == multiset(s) + multiset{x}
    ensures |r| == |s| + 1
    ensures forall y :: y in r ==> y == x || y in s
  {
    if s == [] then [x]
    else if key(x) <= key(s[0]) then [x] + s
    else
      var rest := Insert(x, s[1..], key);
      assert s == [s[0]] + s[1..];
      ConsSorted(s[0], rest, key);
      [s[0]] + rest
  }

  lemma ConsSorted<T>(h: T, t: seq<T>, key: T -> int)
    requires SortedBy(t, key)
    requires forall y :: y in t ==> key(h) <= key(y)
    ensures SortedBy([h] + t, key)
  {
    var r := [h] + t;
    forall i, j | 0 <= i < j < |r| ensures key(r[i]) <= key(r[j]) {
      if i == 0 {
        assert r[j] == t[j - 1];
        assert r[j] in t;
      } else {
        assert r[i] == t[i - 1] && r[j] == t[j - 1];
      }
    }
  }

  /** Stable sort: elements with equal keys keep their relative order. */
  function SortBy<T(==)>(s: seq<T>, key: T -> int): (r: seq<T>)
    ensures SortedBy(r, key)
    ensures multiset(r) == multiset(s)
    ensures |r| == |s|
  {
    if s == [] then []
    else
      assert s == [s[0]] + s[1..];
      Insert(s[0], SortBy(s[1..], key), key)
  }

  /** Sorting does not invent or drop elements. */
  lemma SortByMembers<T>(s: seq<T>, key: T -> int, x: T)
    ensures x in SortBy(s, key) <==> x in s
  {
    var r := SortBy(s, key);
    assert x in r <==> x in multiset(r);
    assert x in s <==> x in multiset(s);
  }
  /** A window `Take(Drop(s, skip), take)` of a sorted sequence is sorted, holds only its elements, and is all of it when one window covers it from the start. */
  lemma WindowOfSorted<T>(s: seq<T>, key: T -> int, skip: nat, take: nat)
    requires SortedBy(s, key)
    ensures var r := Take(Drop(s, skip), take);
      && SortedBy(r, key)
      && (forall x :: x in r ==> x in s)
      && (skip == 0 && |s| <= take ==> r == s)
  {
    var d := Drop(s, skip);
    var r := Take(d, take);
    assert forall i :: 0 <= i < |r| ==> r[i] == d[i];
    forall i, j | 0 <= i < j < |r| ensures key(r[i]) <= key(r[j]) {
      assert r[i] == s[skip + i] && r[j] == s[skip + j];
    }
    forall x | x in r ensures x in s {
      var i :| 0 <= i < |r| && r[i] == x;
      assert s[skip + i] == x;
    }
    if skip == 0 && |s| <= take {
      assert d == s;
    }
  }


  /**
   * The first `n` elements after sorting: still in key order, all taken from
   * `s`, and no element left out has a smaller key than one taken.
   */
  lemma TakeSorted<T>(s: seq<T>, key: T -> int, n: nat)
    ensures var r := Take(SortBy(s, key), n);
      && (forall i, j :: 0 <= i < j < |r| ==> key(r[i]) <= key(r[j]))
      && (forall x :: x in r ==> x in s)
      && (forall x, y :: x in s && x !in r && y in r ==> key(y) <= key(x))
  {
    var sorted := SortBy(s, key);
    var r := Take(sorted, n);
    assert r == sorted[..|r|];
    forall x | x in r ensures x in s {
      SortByMembers(s, key, x);
    }
    forall x, y | x in s && x !in r && y in r ensures key(y) <= key(x) {
      SortByMembers(s, key, x);
      var i :| 0 <= i < |sorted| && sorted[i] == x;
      var j :| 0 <= j < |r| && r[j] == y;
      assert key(sorted[j]) <= key(sorted[i]);
    }
  }

  /** Sorting preserves distinctness of the elements. */
  lemma SortByDistinct<T>(s: seq<T>, key: T -> int)
    requires forall i, j :: 0 <= i < j < |s| ==> s[i] != s[j]
    ensures var r := SortBy(s, key); forall i, j :: 0 <= i < j < |r| ==> r[i] != r[j]
  {
    var r := SortBy(s, key);
    forall i, j | 0 <= i < j < |r| ensures r[i] != r[j] {
      if r[i] == r[j] {
        MultisetCountTwo(r, i, j);
        DistinctCountOne(s, r[i]);
        assert false;
      }
    }
  }

  lemma {:induction false} MultisetCountTwo<T>(s: seq<T>, i: nat, j: nat)
    requires i < j < |s| && s[i] == s[j]
    ensures multiset(s)[s[i]] >= 2
  {
    assert s == s[..i] + [s[i]] + s[i + 1..j] + [s[j]] + s[j + 1..];
    assert multiset(s) == multiset(s[..i]) + multiset{s[i]} + multiset(s[i + 1..j])
                          + multiset{s[j]} + multiset(s[j + 1..]);
  }

  lemma {:induction false} DistinctCountOne<T>(s: seq<T>, x: T)
    requires forall i, j :: 0 <= i < j < |s| ==> s[i] != s[j]
    ensures multiset(s)[x] <= 1
  {
    if s != [] {
      assert s == [s[0]] + s[1..];
      DistinctCountOne(s[1..], x);
      if s[0] == x {
        assert x !in s[1..];
        assert multiset(s[1..])[x] == 0;
      }
    }
  }

  /** Sorting commutes with a map that keeps every key. */
  lemma {:induction false} SortByMap<T>(s: seq<T>, key: T -> int, f: T -> T)
    requires forall x :: key(f(x)) == key(x)
    ensures SortBy(Map(f, s), key) == Map(f, SortBy(s, key))
  {
    if s != [] {
      assert Map(f, s)[1..] == Map(f, s[1..]);
      SortByMap(s[1..], key, f);
      InsertMap(s[0], SortBy(s[1..], key), key, f);
    }
  }

  /** A map that keeps every key keeps a sorted sequence sorted. */
  lemma MapSorted<T>(s: seq<T>, key: T -> int, f: T -> T)
    requires forall y :: key(f(y)) == key(y)
    requires SortedBy(s, key)
    ensures SortedBy(Map(f, s), key)
  {
    var fs := Map(f, s);
    forall i, j | 0 <= i < j < |fs| ensures key(fs[i]) <= key(fs[j]) {
      assert key(fs[i]) == key(s[i]) && key(fs[j]) == key(s[j]);
    }
  }

  /** Inserting commutes with a map that keeps every key. */
  lemma {:induction false} InsertMap<T>(x: T, s: seq<T>, key: T -> int, f: T -> T)
    requires forall y :: key(f(y)) == key(y)
    requires SortedBy(s, key)
    ensures SortedBy(Map(f, s), key)
    ensures Insert(f(x), Map(f, s), key) == Map(f, Insert(x, s, key))
  {
    var fs := Map(f, s);
    MapSorted(s, key, f);
    if s != [] {
      assert fs[0] == f(s[0]);
      if key(x) <= key(s[0]) {
        assert Insert(x, s, key) == [x] + s;
        assert Insert(f(x), fs, key) == [f(x)] + fs;
        assert Map(f, [x] + s) == [f(x)] + fs;
      } else {
        var tail := Insert(x, s[1..], key);
        assert Insert(x, s, key) == [s[0]] + tail;
        assert fs[1..] == Map(f, s[1..]);
        assert SortedBy(s[1..], key);
        assert SortedBy(fs[1..], key);
        assert Insert(f(x), fs, key) == [fs[0]] + Insert(f(x), fs[1..], key);
        InsertMap(x, s[1..], key, f);
        assert Map(f, [s[0]] + tail) == [f(s[0])] + Map(f, tail);
      }
    }
  }

  /** Sorting keeps any key that was unique to each element unique. */
  lemma SortByKeysDistinct<T>(s: seq<T>, key: T -> int, g: T -> string)
    requires KeysDistinct(s, g)
    ensures KeysDistinct(SortBy(s, key), g)
  {
    var r := SortBy(s, key);
    SortByDistinct(s, key);
    forall i, j | 0 <= i < j < |r| ensures g(r[i]) != g(r[j]) {
      SortByMembers(s, key, r[i]);
      SortByMembers(s, key, r[j]);
      var p :| 0 <= p < |s| && s[p] == r[i];
      var q :| 0 <= q < |s| && s[q] == r[j];
      if p < q {
        assert g(s[p]) != g(s[q]);
      } else if q < p {
        assert g(s[q]) != g(s[p]);
      }
    }
  }
}
