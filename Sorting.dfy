/**
 * The stable sort behind `[...xs].sort(cmp)` in src/services/youtubeTools.js,
 * for comparators of the form `(a, b) => key(a) - key(b)`. JavaScript's
 * `Array.prototype.sort` is stable, and a stable sort by a key is unique, so
 * this insertion sort computes what the source's sort computes.
 */
module Sorting {

  /** Keys never decrease along `s`. */
  predicate SortedBy<T>(s: seq<T>, key: T -> int) {
    forall i, j :: 0 <= i < j < |s| ==> key(s[i]) <= key(s[j])
  }

  /** Puts `x` in front of the first element whose key is not smaller. */
  function Insert<T>(x: T, s: seq<T>, key: T -> int): seq<T> {
    if |s| == 0 then [x]
    else if key(x) <= key(s[0]) then [x] + s
    else [s[0]] + Insert(x, s[1..], key)
  }

  /** A stable sort by ascending key: each element goes in front of the
      later elements with an equal key. */
  function SortBy<T>(s: seq<T>, key: T -> int): seq<T> {
    if |s| == 0 then [] else Insert(s[0], SortBy(s[1..], key), key)
  }

  lemma {:induction false} InsertPerm<T>(x: T, s: seq<T>, key: T -> int)
    ensures multiset(Insert(x, s, key)) == multiset(s) + multiset{x}
    ensures |Insert(x, s, key)| == |s| + 1
    decreases |s|
  {
    if |s| > 0 && key(x) > key(s[0]) {
      InsertPerm(x, s[1..], key);
      assert s == [s[0]] + s[1..];
    }
  }

  lemma {:induction false} InsertFrom<T>(x: T, s: seq<T>, key: T -> int)
    ensures forall k :: 0 <= k < |Insert(x, s, key)| ==> Insert(x, s, key)[k] == x || Insert(x, s, key)[k] in s
    decreases |s|
  {
    if |s| > 0 && key(x) > key(s[0]) {
      InsertFrom(x, s[1..], key);
      var r := Insert(x, s[1..], key);
      assert Insert(x, s, key) == [s[0]] + r;
      forall k | 0 <= k < |r| ensures r[k] == x || r[k] in s {
        if r[k] != x { assert r[k] in s[1..]; }
      }
    }
  }

  lemma {:induction false} InsertSorted<T>(x: T, s: seq<T>, key: T -> int)
    requires SortedBy(s, key)
    ensures SortedBy(Insert(x, s, key), key)
    decreases |s|
  {
    if |s| > 0 && key(x) > key(s[0]) {
      InsertSorted(x, s[1..], key);
      InsertFrom(x, s[1..], key);
      var r := Insert(x, s[1..], key);
      assert Insert(x, s, key) == [s[0]] + r;
      forall k | 0 <= k < |r| ensures key(s[0]) <= key(r[k]) {
        if r[k] != x {
          var j :| 0 <= j < |s[1..]| && s[1..][j] == r[k];
          assert s[j + 1] == r[k];
        }
      }
    }
  }

  /** `SortBy` sorts and permutes: the result is ordered by key and holds
      exactly the elements of the input. */
  lemma {:induction false} SortByCorrect<T>(s: seq<T>, key: T -> int)
    ensures SortedBy(SortBy(s, key), key)
    ensures multiset(SortBy(s, key)) == multiset(s)
    ensures |SortBy(s, key)| == |s|
    decreases |s|
  {
    if |s| > 0 {
      SortByCorrect(s[1..], key);
      InsertSorted(s[0], SortBy(s[1..], key), key);
      InsertPerm(s[0], SortBy(s[1..], key), key);
      assert s == [s[0]] + s[1..];
    }
  }

  /** Every element of the sorted sequence is an element of the input. */
  lemma SortByElement<T>(s: seq<T>, key: T -> int, k: nat)
    requires k < |SortBy(s, key)|
    ensures exists j :: 0 <= j < |s| && s[j] == SortBy(s, key)[k]
  {
    SortByCorrect(s, key);
    var t := SortBy(s, key);
    assert t[k] in multiset(t);
  }

  /** The first position holding the least key. */
  function FirstMinIndex<T>(s: seq<T>, key: T -> int): (i: nat)
    requires |s| > 0
    ensures i < |s|
    ensures forall j :: 0 <= j < |s| ==> key(s[i]) <= key(s[j])
    ensures forall j :: 0 <= j < i ==> key(s[j]) > key(s[i])
  {
    if |s| == 1 then 0
    else
      var k := FirstMinIndex(s[1..], key);
      if key(s[0]) <= key(s[1..][k]) then 0 else k + 1
  }

  lemma InsertHead<T>(x: T, s: seq<T>, key: T -> int)
    ensures Insert(x, s, key)[0] == if |s| == 0 || key(x) <= key(s[0]) then x else s[0]
  {
  }

  /** Stability at the front: the first element of the sorted sequence is
      the earliest element with the least key. */
  lemma {:induction false} SortHeadIsFirstMin<T>(s: seq<T>, key: T -> int)
    requires |s| > 0
    ensures |SortBy(s, key)| > 0 && SortBy(s, key)[0] == s[FirstMinIndex(s, key)]
    decreases |s|
  {
    SortByCorrect(s, key);
    var t := SortBy(s[1..], key);
    InsertHead(s[0], t, key);
    if |s| > 1 {
      SortHeadIsFirstMin(s[1..], key);
    }
  }
}
