/**
 The repository's way to remove duplicates: a dictionary by key that keeps the better of two values,
 read out in key order. Terms and relations are both deduplicated like this.
 */
module Dedup {
  import opened Ordering

  /** The dictionary after all of `xs`: a later value replaces an earlier one only when it is better. */
  function Best<T, K>(key: T -> K, better: (T, T) -> bool, xs: seq<T>): map<K, T> {
    if xs == [] then map[]
    else
      var m, x := Best(key, better, xs[..|xs| - 1]), xs[|xs| - 1];
      if key(x) !in m || better(x, m[key(x)]) then m[key(x) := x] else m
  }

  function Gather<T, K>(m: map<K, T>, keys: seq<K>): (xs: seq<T>)
    requires forall k :: k in keys ==> k in m
    ensures |xs| == |keys| && forall i :: 0 <= i < |keys| ==> xs[i] == m[keys[i]]
  {
    if keys == [] then [] else [m[keys[0]]] + Gather(m, keys[1..])
  }

  /** `tuple(m[key] for key in sorted(m))`. */
  ghost function Values<T, K(!new)>(le: (K, K) -> bool, m: map<K, T>): seq<T>
    requires PreOrder(le)
  {
    ListingLists(le, m.Keys);
    KeysListed(le, m);
    Gather(m, Listing(le, m.Keys))
  }

  lemma KeysListed<T, K(!new)>(le: (K, K) -> bool, m: map<K, T>)
    requires PreOrder(le)
    ensures forall k :: k in Listing(le, m.Keys) <==> k in m
  {
    ListingLists(le, m.Keys);
    assert forall k :: k in Listing(le, m.Keys) <==> k in Elements(Listing(le, m.Keys));
  }

  ghost function Deduped<T, K(!new)>(key: T -> K, better: (T, T) -> bool, le: (K, K) -> bool, xs: seq<T>): seq<T>
    requires PreOrder(le)
  {
    Values(le, Best(key, better, xs))
  }

  ghost predicate FiledUnder<T, K>(key: T -> K, m: map<K, T>) {
    forall k :: k in m ==> key(m[k]) == k
  }

  /** Strictly increasing keys. */
  ghost predicate KeySorted<T, K>(key: T -> K, le: (K, K) -> bool, xs: seq<T>) {
    forall i, j :: 0 <= i < j < |xs| ==> le(key(xs[i]), key(xs[j])) && key(xs[i]) != key(xs[j])
  }

  /** The dictionary holds one of the values of each key, and nothing else. */
  lemma {:induction false} BestHolds<T, K>(key: T -> K, better: (T, T) -> bool, xs: seq<T>)
    ensures FiledUnder(key, Best(key, better, xs))
    ensures forall k :: k in Best(key, better, xs) ==> Best(key, better, xs)[k] in xs
    ensures forall x :: x in xs ==> key(x) in Best(key, better, xs)
  {
    if xs != [] {
      var before := xs[..|xs| - 1];
      BestHolds(key, better, before);
      assert xs == before + [xs[|xs| - 1]];
    }
  }

  /** Without duplicates nothing is replaced. */
  lemma {:induction false} BestOfDistinct<T, K>(key: T -> K, better: (T, T) -> bool, xs: seq<T>)
    requires forall i, j :: 0 <= i < j < |xs| ==> key(xs[i]) != key(xs[j])
    ensures forall x :: x in xs ==> key(x) in Best(key, better, xs) && Best(key, better, xs)[key(x)] == x
  {
    if xs != [] {
      var n := |xs| - 1;
      var before := xs[..n];
      BestOfDistinct(key, better, before);
      BestHolds(key, better, before);
      assert forall i :: 0 <= i < n ==> before[i] == xs[i] && key(xs[i]) != key(xs[n]);
      assert forall x :: x in before ==> key(x) != key(xs[n]);
      assert key(xs[n]) !in Best(key, better, before);
      forall x | x in xs
        ensures key(x) in Best(key, better, xs) && Best(key, better, xs)[key(x)] == x
      {
        var i :| 0 <= i < |xs| && xs[i] == x;
        if i < n {
          assert before[i] == x && x in before;
        }
      }
    }
  }

  /** The values of a dictionary come out once per key, in key order. */
  lemma ValuesAreSorted<T(!new), K(!new)>(key: T -> K, le: (K, K) -> bool, m: map<K, T>)
    requires PreOrder(le) && FiledUnder(key, m)
    ensures KeySorted(key, le, Values(le, m))
    ensures forall x :: x in Values(le, m) <==> key(x) in m && m[key(x)] == x
  {
    var keys := Listing(le, m.Keys);
    ListingLists(le, m.Keys);
    KeysListed(le, m);
    var xs := Values(le, m);
    forall x
      ensures x in xs <==> key(x) in m && m[key(x)] == x
    {
      if key(x) in m && m[key(x)] == x {
        assert key(x) in keys;
        var i :| 0 <= i < |keys| && keys[i] == key(x);
        assert xs[i] == x;
      }
      if x in xs {
        var i :| 0 <= i < |xs| && xs[i] == x;
        assert keys[i] in keys;
      }
    }
    forall i, j | 0 <= i < j < |xs|
      ensures le(key(xs[i]), key(xs[j])) && key(xs[i]) != key(xs[j])
    {
      assert keys[i] in keys && keys[j] in keys;
    }
  }

  /** A list in strict key order is the read-out of its own dictionary. */
  lemma SortedIsDeduped<T(!new), K(!new)>(key: T -> K, better: (T, T) -> bool, le: (K, K) -> bool, xs: seq<T>)
    requires TotalOrder(le) && KeySorted(key, le, xs)
    ensures Deduped(key, better, le, xs) == xs
  {
    var m := Best(key, better, xs);
    BestHolds(key, better, xs);
    BestOfDistinct(key, better, xs);
    var keys := seq(|xs|, i requires 0 <= i < |xs| => key(xs[i]));
    forall k
      ensures k in Elements(keys) <==> k in m.Keys
    {
      if k in Elements(keys) {
        var i :| 0 <= i < |keys| && keys[i] == k;
        assert xs[i] in xs;
      }
      if k in m.Keys {
        var i :| 0 <= i < |xs| && xs[i] == m[k];
        assert keys[i] == k;
      }
    }
    ListingLists(le, m.Keys);
    ListingUnique(le, keys, Listing(le, m.Keys), m.Keys);
    forall i | 0 <= i < |xs|
      ensures Deduped(key, better, le, xs)[i] == xs[i]
    {
      assert xs[i] in xs;
    }
  }

  lemma DedupedIsSorted<T(!new), K(!new)>(key: T -> K, better: (T, T) -> bool, le: (K, K) -> bool, xs: seq<T>)
    requires TotalOrder(le)
    ensures KeySorted(key, le, Deduped(key, better, le, xs))
    ensures forall x :: x in Deduped(key, better, le, xs) ==> x in xs
    ensures forall x :: x in xs ==> exists y :: y in Deduped(key, better, le, xs) && key(y) == key(x)
  {
    var m := Best(key, better, xs);
    BestHolds(key, better, xs);
    ValuesAreSorted(key, le, m);
    forall x | x in xs
      ensures exists y :: y in Deduped(key, better, le, xs) && key(y) == key(x)
    {
      assert key(m[key(x)]) == key(x);
      assert m[key(x)] in Deduped(key, better, le, xs);
    }
  }

  /** Removing duplicates twice is removing them once. */
  lemma DedupedIdempotent<T(!new), K(!new)>(key: T -> K, better: (T, T) -> bool, le: (K, K) -> bool, xs: seq<T>)
    requires TotalOrder(le)
    ensures Deduped(key, better, le, Deduped(key, better, le, xs)) == Deduped(key, better, le, xs)
  {
    DedupedIsSorted(key, better, le, xs);
    SortedIsDeduped(key, better, le, Deduped(key, better, le, xs));
  }

  /** Reads a dictionary out in key order. */
  method ReadOut<T(!new), K(!new,==)>(le: (K, K) -> bool, m: map<K, T>) returns (xs: seq<T>)
    requires TotalOrder(le)
    ensures xs == Values(le, m)
  {
    KeysListed(le, m);
    var keys := SortSet(le, m.Keys);
    xs := Gather(m, keys);
  }

  /** `tuple(dict.fromkeys(xs))`: the first occurrence of each. */
  function FirstOnly<T(==,!new)>(xs: seq<T>): (ys: seq<T>)
    ensures forall x :: x in ys <==> x in xs
    ensures Distinct(ys)
  {
    if xs == [] then []
    else
      var before, x := FirstOnly(xs[..|xs| - 1]), xs[|xs| - 1];
      assert xs == xs[..|xs| - 1] + [x];
      if x in before then before else before + [x]
  }
}
