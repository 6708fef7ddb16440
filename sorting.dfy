/**
 * The two library selections the placement engines rely on: Python's stable
 * list.sort(key=...) over real-valued keys, and where it leaves the maximum.
 */
module Sorting {

  ghost predicate SortedBy<T>(s: seq<T>, key: T -> real) {
    forall i, j :: 0 <= i < j < |s| ==> key(s[i]) <= key(s[j])
  }

  /** Inserts x into t right after the last element whose key is at most key(x). */
  function Insert<T>(x: T, t: seq<T>, key: T -> real): (r: seq<T>)
    ensures |r| == |t| + 1
  {
    if t == [] then [x]
    else if key(t[|t| - 1]) <= key(x) then t + [x]
    else Insert(x, t[..|t| - 1], key) + [t[|t| - 1]]
  }

  /** Insertion adds exactly x. */
  lemma {:induction false} InsertPermutes<T>(x: T, t: seq<T>, key: T -> real)
    ensures multiset(Insert(x, t, key)) == multiset(t) + multiset{x}
    decreases |t|
  {
    if t != [] && key(x) < key(t[|t| - 1]) {
      var front := t[..|t| - 1];
      InsertPermutes(x, front, key);
      assert t == front + [t[|t| - 1]];
    }
  }

  /** Insertion into a sorted sequence keeps it sorted. */
  lemma {:induction false} InsertSorted<T>(x: T, t: seq<T>, key: T -> real)
    requires SortedBy(t, key)
    ensures SortedBy(Insert(x, t, key), key)
    decreases |t|
  {
    if t != [] && key(x) < key(t[|t| - 1]) {
      var y, front := t[|t| - 1], t[..|t| - 1];
      assert SortedBy(front, key);
      InsertSorted(x, front, key);
      InsertPermutes(x, front, key);
      var f := Insert(x, front, key);
      var r := f + [y];
      forall i | 0 <= i < |f|
        ensures key(f[i]) <= key(y)
      {
        assert f[i] in multiset(f);
        if f[i] != x {
          assert f[i] in multiset(front);
          var j :| 0 <= j < |front| && front[j] == f[i];
          assert t[j] == f[i];
        }
      }
      forall i, j | 0 <= i < j < |r|
        ensures key(r[i]) <= key(r[j])
      {
        if j < |f| {
          assert r[i] == f[i] && r[j] == f[j];
        } else {
          assert r[i] == f[i] && r[j] == y;
        }
      }
    }
  }

  /**
   * list.sort(key=key): stable, since each element is inserted after the
   * earlier elements whose key is equal to its own.
   */
  function SortBy<T>(s: seq<T>, key: T -> real): (r: seq<T>)
    ensures |r| == |s|
  {
    if s == [] then [] else Insert(s[|s| - 1], SortBy(s[..|s| - 1], key), key)
  }

  /** The sorted list holds the same elements as the input, in ascending key order. */
  lemma {:induction false} SortByCorrect<T>(s: seq<T>, key: T -> real)
    ensures multiset(SortBy(s, key)) == multiset(s)
    ensures SortedBy(SortBy(s, key), key)
    decreases |s|
  {
    if s != [] {
      var p := s[..|s| - 1];
      SortByCorrect(p, key);
      InsertPermutes(s[|s| - 1], SortBy(p, key), key);
      InsertSorted(s[|s| - 1], SortBy(p, key), key);
      assert s == p + [s[|s| - 1]];
    }
  }

  /** The elements of s whose key is v, in their order in s. */
  function WithKey<T>(s: seq<T>, key: T -> real, v: real): seq<T> {
    if s == [] then []
    else WithKey(s[..|s| - 1], key, v) + (if key(s[|s| - 1]) == v then [s[|s| - 1]] else [])
  }

  /**
   * Insertion places x after every element of equal key: among the elements
   * of key v, x (when it has that key) comes last and the others keep their
   * order.
   */
  lemma {:induction false} InsertStable<T>(x: T, t: seq<T>, key: T -> real, v: real)
    ensures WithKey(Insert(x, t, key), key, v) == WithKey(t, key, v) + (if key(x) == v then [x] else [])
    decreases |t|
  {
    if t == [] {
      assert [x][..0] == [];
    } else if key(t[|t| - 1]) <= key(x) {
      assert (t + [x])[..|t|] == t;
    } else {
      var y, front := t[|t| - 1], t[..|t| - 1];
      var f := Insert(x, front, key);
      InsertStable(x, front, key, v);
      assert (f + [y])[..|f|] == f;
    }
  }

  /**
   * list.sort is stable: for every key value, the elements with that key
   * appear in the sorted list in the order they had before.
   */
  lemma {:induction false} SortByStable<T>(s: seq<T>, key: T -> real, v: real)
    ensures WithKey(SortBy(s, key), key, v) == WithKey(s, key, v)
    decreases |s|
  {
    if s != [] {
      var p := s[..|s| - 1];
      SortByStable(p, key, v);
      InsertStable(s[|s| - 1], SortBy(p, key), key, v);
    }
  }

  /** The last index of a maximal key: where a stable ascending sort leaves its final element. */
  function LastMaxBy<T>(s: seq<T>, key: T -> real): (m: nat)
    requires |s| > 0
    ensures m < |s|
    ensures forall j :: 0 <= j < |s| ==> key(s[j]) <= key(s[m])
    ensures forall j :: m < j < |s| ==> key(s[j]) < key(s[m])
  {
    if |s| == 1 then 0
    else
      var k := LastMaxBy(s[..|s| - 1], key);
      assert forall j :: 0 <= j < |s| - 1 ==> s[..|s| - 1][j] == s[j];
      if key(s[k]) <= key(s[|s| - 1]) then |s| - 1 else k
  }

  /**
   * Sorting by key and taking the last element (district.sort(key=...);
   * district[-1]) picks the last element of maximal key.
   */
  lemma {:induction false} SortedLastIsLastMax<T>(s: seq<T>, key: T -> real)
    requires |s| > 0
    ensures SortBy(s, key)[|s| - 1] == s[LastMaxBy(s, key)]
    decreases |s|
  {
    var n := |s|;
    if n > 1 {
      var p := s[..n - 1];
      SortedLastIsLastMax(p, key);
      assert SortBy(p, key)[n - 2] == s[LastMaxBy(p, key)];
    }
  }
}
