/**
 * `Array.prototype.sort` with a comparator of the form
 * `(a, b) => key(a) - key(b)`: the sort is stable (ECMAScript 2019 and
 * later), so the result is ordered by key with ties left in input order.
 * Written as an insertion sort; the lemmas state the three properties that
 * determine a stable sort's output: ordered, a permutation, ties in order.
 */
module StableSort {

  /** Non-decreasing by `key`. */
  ghost predicate SortedBy<T>(s: seq<T>, key: T -> int) {
    forall i, j :: 0 <= i < j < |s| ==> key(s[i]) <= key(s[j])
  }

  /** The elements whose key is `k`, in their order in `s`. */
  function WithKey<T>(s: seq<T>, key: T -> int, k: int): seq<T> {
    if s == [] then []
    else (if key(s[0]) == k then [s[0]] else []) + WithKey(s[1..], key, k)
  }

  /** Puts `x` in front of the first element whose key is not below its own. */
  function Insert<T>(x: T, s: seq<T>, key: T -> int): (r: seq<T>)
    requires SortedBy(s, key)
    ensures SortedBy(r, key)
    ensures multiset(r) == multiset(s) + multiset{x}
    ensures forall y :: y in r ==> y == x || y in s
  {
    if s == [] then [x]
    else if key(x) <= key(s[0]) then [x] + s
    else
      var t := Insert(x, s[1..], key);
      assert s == [s[0]] + s[1..];
      LeastKeyFirst(s, key);
      SortedCons(s[0], t, key);
      [s[0]] + t
  }

  /** In a key-ordered sequence no element has a smaller key than the first. */
  lemma LeastKeyFirst<T>(s: seq<T>, key: T -> int)
    requires SortedBy(s, key) && s != []
    ensures forall y :: y in s ==> key(s[0]) <= key(y)
  {
  }

  /** An element whose key is at most every key of a key-ordered sequence can be put in front of it. */
  lemma SortedCons<T>(h: T, t: seq<T>, key: T -> int)
    requires SortedBy(t, key)
    requires forall y :: y in t ==> key(h) <= key(y)
    ensures SortedBy([h] + t, key)
  {
    var r := [h] + t;
    forall i, j | 0 <= i < j < |r| ensures key(r[i]) <= key(r[j]) {
      assert r[j] == t[j - 1];
      if i > 0 {
        assert r[i] == t[i - 1];
      }
    }
  }

  /** The stable sort by `key`. */
  function Sort<T>(s: seq<T>, key: T -> int): (r: seq<T>)
    ensures SortedBy(r, key)
    ensures multiset(r) == multiset(s)
    ensures |r| == |s|
  {
    if s == [] then []
    else
      assert s == [s[0]] + s[1..];
      var r := Insert(s[0], Sort(s[1..], key), key);
      assert |multiset(r)| == |r|;
      r
  }

  lemma WithKeyCons<T>(h: T, t: seq<T>, key: T -> int, k: int)
    ensures WithKey([h] + t, key, k) == (if key(h) == k then [h] else []) + WithKey(t, key, k)
  {
    assert ([h] + t)[0] == h && ([h] + t)[1..] == t;
  }

  lemma {:induction false} WithKeyInsert<T>(x: T, s: seq<T>, key: T -> int, k: int)
    requires SortedBy(s, key)
    ensures WithKey(Insert(x, s, key), key, k) == (if key(x) == k then [x] else []) + WithKey(s, key, k)
  {
    if s == [] || key(x) <= key(s[0]) {
      assert Insert(x, s, key) == [x] + s;
      WithKeyCons(x, s, key, k);
    } else {
      var t := Insert(x, s[1..], key);
      assert Insert(x, s, key) == [s[0]] + t;
      WithKeyInsert(x, s[1..], key, k);
      var xs: seq<T> := if key(x) == k then [x] else [];
      var ys: seq<T> := if key(s[0]) == k then [s[0]] else [];
      WithKeyCons(s[0], t, key, k);
      assert s == [s[0]] + s[1..];
      WithKeyCons(s[0], s[1..], key, k);
      assert xs == [] || ys == [];
      assert ys + (xs + WithKey(s[1..], key, k)) == xs + (ys + WithKey(s[1..], key, k));
    }
  }

  /** Ties keep their input order: for every key, the elements with that key appear in the same order. */
  lemma {:induction false} SortIsStable<T>(s: seq<T>, key: T -> int, k: int)
    ensures WithKey(Sort(s, key), key, k) == WithKey(s, key, k)
  {
    if s != [] {
      SortIsStable(s[1..], key, k);
      WithKeyInsert(s[0], Sort(s[1..], key), key, k);
    }
  }

  lemma {:induction false} WithKeyMembers<T>(s: seq<T>, key: T -> int, k: int)
    ensures forall y :: y in WithKey(s, key, k) ==> y in s && key(y) == k
  {
    if s != [] {
      WithKeyMembers(s[1..], key, k);
    }
  }

  lemma BothEmptyOrNeither<T>(r1: seq<T>, r2: seq<T>, key: T -> int)
    requires forall k :: WithKey(r1, key, k) == WithKey(r2, key, k)
    ensures r1 == [] <==> r2 == []
  {
    if r1 != [] {
      var k := key(r1[0]);
      assert WithKey(r1, key, k) == [r1[0]] + WithKey(r1[1..], key, k);
      assert WithKey(r2, key, k) != [];
    }
    if r2 != [] {
      var k := key(r2[0]);
      assert WithKey(r2, key, k) == [r2[0]] + WithKey(r2[1..], key, k);
      assert WithKey(r1, key, k) != [];
    }
  }

  lemma SameHead<T>(r1: seq<T>, r2: seq<T>, key: T -> int)
    requires r1 != [] && r2 != []
    requires SortedBy(r1, key) && SortedBy(r2, key)
    requires forall k :: WithKey(r1, key, k) == WithKey(r2, key, k)
    ensures r1[0] == r2[0]
  {
    var k1, k2 := key(r1[0]), key(r2[0]);
    KeyBound(r1, r2, key);
    KeyBound(r2, r1, key);
    assert k1 == k2;
    assert WithKey(r1, key, k1)[0] == r1[0];
    assert WithKey(r2, key, k1)[0] == r2[0];
  }

  /** The first key of `r1` is at least the first key of `r2` when both hold the same elements of each key. */
  lemma KeyBound<T>(r1: seq<T>, r2: seq<T>, key: T -> int)
    requires r1 != [] && r2 != []
    requires SortedBy(r2, key)
    requires forall k :: WithKey(r1, key, k) == WithKey(r2, key, k)
    ensures key(r2[0]) <= key(r1[0])
  {
    var k1 := key(r1[0]);
    var w := WithKey(r2, key, k1);
    assert WithKey(r1, key, k1) == [r1[0]] + WithKey(r1[1..], key, k1);
    WithKeyMembers(r2, key, k1);
    assert w[0] in w;
    LeastKeyFirst(r2, key);
  }

  lemma SameTails<T>(r1: seq<T>, r2: seq<T>, key: T -> int)
    requires r1 != [] && r2 != [] && r1[0] == r2[0]
    requires forall k :: WithKey(r1, key, k) == WithKey(r2, key, k)
    ensures forall k :: WithKey(r1[1..], key, k) == WithKey(r2[1..], key, k)
  {
    forall k ensures WithKey(r1[1..], key, k) == WithKey(r2[1..], key, k) {
      var h: seq<T> := if key(r1[0]) == k then [r1[0]] else [];
      assert WithKey(r1, key, k) == h + WithKey(r1[1..], key, k);
      assert WithKey(r2, key, k) == h + WithKey(r2[1..], key, k);
      assert WithKey(r1[1..], key, k) == WithKey(r1, key, k)[|h|..];
      assert WithKey(r2[1..], key, k) == WithKey(r2, key, k)[|h|..];
    }
  }

  /**
   * A stable sort's output is determined: two key-ordered sequences that hold
   * the same elements of each key, in the same order, are equal.
   */
  lemma {:induction false} StableOrderIsUnique<T>(r1: seq<T>, r2: seq<T>, key: T -> int)
    requires SortedBy(r1, key) && SortedBy(r2, key)
    requires forall k :: WithKey(r1, key, k) == WithKey(r2, key, k)
    ensures r1 == r2
    decreases |r1|
  {
    BothEmptyOrNeither(r1, r2, key);
    if r1 != [] {
      SameHead(r1, r2, key);
      SameTails(r1, r2, key);
      StableOrderIsUnique(r1[1..], r2[1..], key);
      assert r1 == [r1[0]] + r1[1..] && r2 == [r2[0]] + r2[1..];
    }
  }

  /** Any key-ordered rearrangement that keeps ties in input order is exactly `Sort`. */
  lemma SortIsTheStableSort<T>(s: seq<T>, r: seq<T>, key: T -> int)
    requires SortedBy(r, key)
    requires forall k :: WithKey(r, key, k) == WithKey(s, key, k)
    ensures r == Sort(s, key)
  {
    forall k ensures WithKey(r, key, k) == WithKey(Sort(s, key), key, k) {
      SortIsStable(s, key, k);
    }
    StableOrderIsUnique(r, Sort(s, key), key);
  }
}
