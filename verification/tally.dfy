/**
 * Counting categories the way the dashboard's charts do: a dictionary
 * accumulator whose keys keep their insertion order (`acc[key] =
 * (acc[key] || 0) + 1`, then `Object.entries`), and the chart bars built
 * from it.
 */
module Tally {

  /** One chart bar: `{ name, value }`. */
  datatype Entry<K> = Entry(name: K, value: int)

  /** Index of the first occurrence of `x` in `xs`. */
  function FirstIndex<K(==)>(xs: seq<K>, x: K): (i: nat)
    requires x in xs
    ensures i < |xs| && xs[i] == x && x !in xs[..i]
  {
    if xs[0] == x then 0
    else
      var i := 1 + FirstIndex(xs[1..], x);
      assert xs[..i] == [xs[0]] + xs[1..][..i - 1];
      i
  }

  /** The distinct elements of `xs`, in the order in which they first appear. */
  function FirstSeen<K(==,!new)>(xs: seq<K>): (r: seq<K>)
    ensures forall x :: multiset(r)[x] == if x in xs then 1 else 0
  {
    if xs == [] then []
    else
      var init := FirstSeen(xs[..|xs| - 1]);
      var x := xs[|xs| - 1];
      assert xs == xs[..|xs| - 1] + [x];
      if x in init then init else init + [x]
  }

  lemma FirstIndexOfPrefix<K>(xs: seq<K>, n: nat, x: K)
    requires n <= |xs| && x in xs[..n]
    ensures FirstIndex(xs[..n], x) == FirstIndex(xs, x)
  {
    var i, j := FirstIndex(xs[..n], x), FirstIndex(xs, x);
    assert xs[..n][..i] == xs[..i];
  }

  /** `FirstSeen` lists the categories by the position of their first occurrence. */
  lemma {:induction false} FirstSeenOrder<K(!new)>(xs: seq<K>)
    ensures forall x :: x in FirstSeen(xs) ==> x in xs
    ensures forall i, j :: 0 <= i < j < |FirstSeen(xs)| ==>
      FirstIndex(xs, FirstSeen(xs)[i]) < FirstIndex(xs, FirstSeen(xs)[j])
  {
    if xs != [] {
      var n := |xs| - 1;
      var p := xs[..n];
      var x := xs[n];
      var init := FirstSeen(p);
      FirstSeenOrder(p);
      assert xs == p + [x];
      forall y | y in init ensures FirstIndex(p, y) == FirstIndex(xs, y) {
        FirstIndexOfPrefix(xs, n, y);
      }
      if x !in init {
        assert x !in p;
        assert FirstIndex(xs, x) == n;
      }
    }
  }

  /** The bars for the names `ns`, each with its number of occurrences in `m`. */
  function Tally<K>(ns: seq<K>, m: multiset<K>): (r: seq<Entry<K>>)
    ensures |r| == |ns|
  {
    seq(|ns|, i requires 0 <= i < |ns| => Entry(ns[i], m[ns[i]]))
  }

  /** The bars a count builder yields: one per distinct key, in first-seen order, with its count. */
  function Counts<K(==,!new)>(keys: seq<K>): seq<Entry<K>> {
    Tally(FirstSeen(keys), multiset(keys))
  }

  /** The names of the bars, in order. */
  function Names<K>(es: seq<Entry<K>>): (r: seq<K>)
    ensures |r| == |es| && forall i :: 0 <= i < |es| ==> r[i] == es[i].name
  {
    seq(|es|, i requires 0 <= i < |es| => es[i].name)
  }

  /** The total of the bars' values. */
  function SumValues<K>(es: seq<Entry<K>>): int {
    if es == [] then 0 else SumValues(es[..|es| - 1]) + es[|es| - 1].value
  }

  /**
   * The counted bars: each key of the input once, in first-seen order, each
   * with a count of at least one, and the counts add up to the number of keys.
   */
  lemma CountsFacts<K(!new)>(keys: seq<K>)
    ensures forall x :: multiset(Names(Counts(keys)))[x] == if x in keys then 1 else 0
    ensures forall i, j :: 0 <= i < j < |Counts(keys)| ==>
      FirstIndex(keys, Counts(keys)[i].name) < FirstIndex(keys, Counts(keys)[j].name)
    ensures forall i :: 0 <= i < |Counts(keys)| ==>
      Counts(keys)[i].value == multiset(keys)[Counts(keys)[i].name] >= 1
    ensures SumValues(Counts(keys)) == |keys|
  {
    var fs := FirstSeen(keys);
    assert Names(Counts(keys)) == fs;
    FirstSeenOrder(keys);
    CountsSum(keys);
  }

  lemma {:induction false} CountsSum<K(!new)>(keys: seq<K>)
    ensures SumValues(Counts(keys)) == |keys|
  {
    if keys != [] {
      var n := |keys| - 1;
      var p, y := keys[..n], keys[n];
      var fs := FirstSeen(p);
      assert keys == p + [y];
      CountsSum(p);
      TallyAdd(fs, multiset(p), y);
      if y !in fs {
        var fs' := fs + [y];
        assert Tally(fs', multiset(keys))[..|fs|] == Tally(fs, multiset(keys));
        assert multiset(fs)[y] == 0 && y !in p;
        assert multiset(keys)[y] == 1;
      }
    }
  }

  /** One more key `y` adds one to the total exactly when `y` is one of the (distinct) names. */
  lemma {:induction false} TallyAdd<K>(ns: seq<K>, m: multiset<K>, y: K)
    requires forall x :: multiset(ns)[x] <= 1
    ensures SumValues(Tally(ns, m + multiset{y})) == SumValues(Tally(ns, m)) + (if y in ns then 1 else 0)
  {
    if ns != [] {
      var n := |ns| - 1;
      var p, z := ns[..n], ns[n];
      assert ns == p + [z];
      assert forall x :: multiset(p)[x] <= multiset(ns)[x];
      TallyAdd(p, m, y);
      assert Tally(ns, m + multiset{y})[..n] == Tally(p, m + multiset{y});
      assert Tally(ns, m)[..n] == Tally(p, m);
      if y == z {
        assert multiset(ns)[y] == multiset(p)[y] + 1;
      }
    }
  }

  lemma {:induction false} SumValuesAppend<K>(a: seq<Entry<K>>, b: seq<Entry<K>>)
    ensures SumValues(a + b) == SumValues(a) + SumValues(b)
  {
    if b != [] {
      var n := |b| - 1;
      assert (a + b)[..|a + b| - 1] == a + b[..n];
      SumValuesAppend(a, b[..n]);
    } else {
      assert a + b == a;
    }
  }

  /** Where the last element of `b` sits in its permutation `a`, and what is left on both sides. */
  lemma PickMatching<T>(a: seq<T>, b: seq<T>) returns (i: nat)
    requires multiset(a) == multiset(b) && b != []
    ensures i < |a| && a[i] == b[|b| - 1]
    ensures multiset(a[..i] + a[i + 1..]) == multiset(b[..|b| - 1])
  {
    var n := |b| - 1;
    var e := b[n];
    assert b == b[..n] + [e];
    assert e in multiset(a);
    i :| 0 <= i < |a| && a[i] == e;
    assert a == a[..i] + [e] + a[i + 1..];
    assert multiset(a) == multiset(a[..i]) + multiset{e} + multiset(a[i + 1..]);
    assert multiset(a[..i] + a[i + 1..]) == multiset(a) - multiset{e};
    assert multiset(b[..n]) == multiset(b) - multiset{e};
  }

  /** Reordering the bars keeps their total. */
  lemma {:induction false} SumValuesPermutation<K>(a: seq<Entry<K>>, b: seq<Entry<K>>)
    requires multiset(a) == multiset(b)
    ensures SumValues(a) == SumValues(b)
    decreases |b|
  {
    if b == [] {
      assert |multiset(a)| == 0;
    } else {
      var n := |b| - 1;
      var e := b[n];
      var i := PickMatching(a, b);
      var rest := a[..i] + a[i + 1..];
      SumValuesPermutation(rest, b[..n]);
      assert a == (a[..i] + [e]) + a[i + 1..];
      SumValuesAppend(a[..i] + [e], a[i + 1..]);
      SumValuesAppend(a[..i], [e]);
      SumValuesAppend(a[..i], a[i + 1..]);
      assert SumValues([e]) == e.value by { assert [e][..0] == []; }
    }
  }

  lemma NamesAppend<K>(a: seq<Entry<K>>, b: seq<Entry<K>>)
    ensures Names(a + b) == Names(a) + Names(b)
  {
  }

  /** Reordering the bars keeps how often each name occurs among them. */
  lemma {:induction false} NamesPermutation<K>(a: seq<Entry<K>>, b: seq<Entry<K>>)
    requires multiset(a) == multiset(b)
    ensures multiset(Names(a)) == multiset(Names(b))
    decreases |b|
  {
    if b == [] {
      assert |multiset(a)| == 0;
    } else {
      var n := |b| - 1;
      var e := b[n];
      var i := PickMatching(a, b);
      var rest := a[..i] + a[i + 1..];
      NamesPermutation(rest, b[..n]);
      assert a == (a[..i] + [e]) + a[i + 1..];
      assert b == b[..n] + [e];
      NamesAppend(b[..n], [e]);
      NamesAppend(a[..i] + [e], a[i + 1..]);
      NamesAppend(a[..i], [e]);
      NamesAppend(a[..i], a[i + 1..]);
      assert Names([e]) == [e.name];
      calc {
        multiset(Names(a));
        multiset(Names(a[..i])) + multiset{e.name} + multiset(Names(a[i + 1..]));
        multiset(Names(rest)) + multiset{e.name};
        multiset(Names(b[..n])) + multiset{e.name};
        multiset(Names(b));
      }
    }
  }

  /** The accumulator holds the counts of `keys`: its key order is first-seen order, and each key maps to its number of occurrences. */
  ghost predicate Counted<K(!new)>(keys: seq<K>, order: seq<K>, counts: map<K, int>) {
    && order == FirstSeen(keys)
    && (forall k :: k in counts <==> k in keys)
    && (forall k :: k in counts ==> counts[k] == multiset(keys)[k])
  }

  /**
   * `acc[key] = (acc[key] || 0) + 1`: a new key is appended to the key
   * order, and the key's count goes up by one.
   */
  method Add<K(==,!new)>(order: seq<K>, counts: map<K, int>, ghost keys: seq<K>, key: K)
    returns (order': seq<K>, counts': map<K, int>)
    requires Counted(keys, order, counts)
    ensures Counted(keys + [key], order', counts')
  {
    assert (keys + [key])[..|keys|] == keys;
    var previous := if key in counts then counts[key] else 0;
    order' := if key in counts then order else order + [key];
    counts' := counts[key := previous + 1];
  }

  /**
   * The count builder: one pass over the keys, adding a key to the
   * accumulator (at the end of its key order) the first time it is met and
   * incrementing its count every time.
   */
  method CountBy<K(==,!new)>(keys: seq<K>) returns (order: seq<K>, counts: map<K, int>)
    ensures order == FirstSeen(keys)
    ensures forall k :: k in counts <==> k in keys
    ensures forall k :: k in counts ==> counts[k] == multiset(keys)[k]
    ensures Entries(order, counts) == Counts(keys)
  {
    order, counts := [], map[];
    for i := 0 to |keys|
      invariant Counted(keys[..i], order, counts)
    {
      assert keys[..i + 1] == keys[..i] + [keys[i]];
      order, counts := Add(order, counts, keys[..i], keys[i]);
    }
    assert keys[..|keys|] == keys;
    EntriesOfCounts(keys, order, counts);
  }

  lemma EntriesOfCounts<K(!new)>(keys: seq<K>, order: seq<K>, counts: map<K, int>)
    requires order == FirstSeen(keys)
    requires forall k :: k in counts <==> k in keys
    requires forall k :: k in counts ==> counts[k] == multiset(keys)[k]
    ensures forall k :: k in order ==> k in counts
    ensures Entries(order, counts) == Counts(keys)
  {
    assert forall k :: k in order ==> multiset(order)[k] == 1;
  }

  /** `Object.entries(acc).map(([name, value]) => ({ name, value }))`. */
  function Entries<K>(order: seq<K>, counts: map<K, int>): (r: seq<Entry<K>>)
    requires forall k :: k in order ==> k in counts
    ensures Names(r) == order
    ensures forall i :: 0 <= i < |r| ==> r[i].value == counts[order[i]]
  {
    seq(|order|, i requires 0 <= i < |order| => Entry(order[i], counts[order[i]]))
  }
}
