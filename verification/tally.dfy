/**
 * Counting occurrences per key, the way the services build plain objects
 * (`counts[key] = (counts[key] || 0) + 1`): keys appear in order of first
 * occurrence and each carries its count.
 */
module Tally {
  import opened Base

  type Counts<K> = seq<(K, nat)>

  predicate KeysUnique<K(==)>(t: Counts<K>) {
    forall i, j :: 0 <= i < j < |t| ==> t[i].0 != t[j].0
  }

  function Total<K>(t: Counts<K>): nat {
    if t == [] then 0 else t[0].1 + Total(t[1..])
  }

  /** The count stored for `k`, 0 when `k` is not a key. */
  function CountOf<K(==)>(t: Counts<K>, k: K): nat {
    if t == [] then 0 else (if t[0].0 == k then t[0].1 else 0) + CountOf(t[1..], k)
  }

  predicate HasKey<K(==)>(t: Counts<K>, k: K) {
    t != [] && (t[0].0 == k || HasKey(t[1..], k))
  }

  /** `counts[k] = (counts[k] || 0) + 1`: an existing key keeps its place, a new one goes last. */
  function Bump<K(==)>(t: Counts<K>, k: K): (r: Counts<K>)
    requires KeysUnique(t)
    ensures KeysUnique(r)
    ensures |r| == if HasKey(t, k) then |t| else |t| + 1
    ensures forall i :: 0 <= i < |t| ==> r[i].0 == t[i].0
    ensures forall i :: |t| <= i < |r| ==> r[i].0 == k
  {
    if t == [] then [(k, 1)]
    else if t[0].0 == k then [(k, t[0].1 + 1)] + t[1..]
    else
      var r := [t[0]] + Bump(t[1..], k);
      assert forall j :: 0 < j < |r| ==> r[j].0 != t[0].0 by {
        forall j | 0 < j < |r| ensures r[j].0 != t[0].0 {
          if j < |t| {
            assert r[j].0 == t[j].0;
          }
        }
      }
      r
  }

  /** Bumping adds one to the count of `k` and to nothing else. */
  lemma {:induction false} BumpCounts<K>(t: Counts<K>, k: K, other: K)
    requires KeysUnique(t)
    ensures CountOf(Bump(t, k), k) == CountOf(t, k) + 1
    ensures other != k ==> CountOf(Bump(t, k), other) == CountOf(t, other)
    ensures Total(Bump(t, k)) == Total(t) + 1
  {
    if t != [] && t[0].0 != k {
      BumpCounts(t[1..], k, other);
      var r := Bump(t, k);
      assert r[1..] == Bump(t[1..], k);
    }
  }

  /** Tally of a list of keys, folding from the front. */
  function TallyOf<K(==)>(keys: seq<K>): (r: Counts<K>)
    ensures KeysUnique(r)
  {
    if keys == [] then [] else Bump(TallyOf(keys[..|keys| - 1]), keys[|keys| - 1])
  }

  /** Every key is counted exactly as often as it occurs, and nothing else. */
  lemma {:induction false} TallyOfCounts<K>(keys: seq<K>, k: K)
    ensures CountOf(TallyOf(keys), k) == Occurrences(keys, k)
    ensures Total(TallyOf(keys)) == |keys|
  {
    if keys != [] {
      var init := keys[..|keys| - 1];
      var last := keys[|keys| - 1];
      TallyOfCounts(init, k);
      BumpCounts(TallyOf(init), last, k);
      assert keys == init + [last];
      OccurrencesAppend(init, [last], k);
      assert Occurrences([last], k) == if last == k then 1 else 0 by {
        assert [last][1..] == [];
      }
    }
  }

  /** A key that is no entry's key has count 0. */
  lemma {:induction false} CountOfAbsent<K>(t: Counts<K>, k: K)
    requires forall i :: 0 <= i < |t| ==> t[i].0 != k
    ensures CountOf(t, k) == 0
  {
    if t != [] {
      CountOfAbsent(t[1..], k);
    }
  }

  /** In a tally with unique keys, the number beside a key is that key's count. */
  lemma {:induction false} EntryCount<K>(t: Counts<K>, i: int)
    requires KeysUnique(t)
    requires 0 <= i < |t|
    ensures CountOf(t, t[i].0) == t[i].1
  {
    if i == 0 {
      CountOfAbsent(t[1..], t[0].0);
    } else {
      EntryCount(t[1..], i - 1);
    }
  }

  /** A key with a positive count has an entry. */
  lemma {:induction false} CountedKeyListed<K>(t: Counts<K>, k: K)
    requires CountOf(t, k) > 0
    ensures exists i :: 0 <= i < |t| && t[i].0 == k
  {
    if t[0].0 != k {
      CountedKeyListed(t[1..], k);
      var i :| 0 <= i < |t[1..]| && t[1..][i].0 == k;
      assert t[i + 1].0 == k;
    }
  }

  /** Every entry of a tally of keys carries the number of times its key occurs. */
  lemma TallyEntry<K>(keys: seq<K>, i: int)
    requires 0 <= i < |TallyOf(keys)|
    ensures TallyOf(keys)[i].1 == Occurrences(keys, TallyOf(keys)[i].0)
  {
    EntryCount(TallyOf(keys), i);
    TallyOfCounts(keys, TallyOf(keys)[i].0);
  }

  /** Every key that occurs has an entry in the tally. */
  lemma TallyListsKey<K>(keys: seq<K>, k: K)
    requires k in keys
    ensures exists i :: 0 <= i < |TallyOf(keys)| && TallyOf(keys)[i].0 == k
  {
    OccurrencesOfMember(keys, k);
    TallyOfCounts(keys, k);
    CountedKeyListed(TallyOf(keys), k);
  }

  /** Any reordering of a tally keeps every entry's count right. */
  lemma ReorderedTallyEntry<K>(keys: seq<K>, r: Counts<K>, i: int)
    requires multiset(r) == multiset(TallyOf(keys))
    requires 0 <= i < |r|
    ensures r[i].1 == Occurrences(keys, r[i].0)
  {
    var t := TallyOf(keys);
    assert r[i] in multiset(t);
    var p :| 0 <= p < |t| && t[p] == r[i];
    TallyEntry(keys, p);
  }

  /** Any reordering of a tally lists every key that occurs. */
  lemma ReorderedTallyListsKey<K>(keys: seq<K>, r: Counts<K>, k: K)
    requires multiset(r) == multiset(TallyOf(keys))
    requires k in keys
    ensures exists i :: 0 <= i < |r| && r[i].0 == k
  {
    var t := TallyOf(keys);
    TallyListsKey(keys, k);
    var p :| 0 <= p < |t| && t[p].0 == k;
    assert t[p] in multiset(r);
    var i :| 0 <= i < |r| && r[i] == t[p];
  }
}
