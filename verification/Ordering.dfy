/**
 Python's `sorted` as the repository uses it: over the keys of a dictionary or a set (no two
 elements compare equal), and over a list with a key function (a stable sort).
 */
module Ordering {

  ghost predicate Transitive<T(!new)>(le: (T, T) -> bool) {
    forall x, y, z :: le(x, y) && le(y, z) ==> le(x, z)
  }

  ghost predicate Connected<T(!new)>(le: (T, T) -> bool) {
    forall x, y :: le(x, y) || le(y, x)
  }

  ghost predicate AntiSymmetric<T(!new)>(le: (T, T) -> bool) {
    forall x, y :: le(x, y) && le(y, x) ==> x == y
  }

  /** What a key function gives: any two elements compare, ties are possible. */
  ghost predicate PreOrder<T(!new)>(le: (T, T) -> bool) {
    Transitive(le) && Connected(le)
  }

  /** What dictionary keys have: no ties. */
  ghost predicate TotalOrder<T(!new)>(le: (T, T) -> bool) {
    PreOrder(le) && AntiSymmetric(le)
  }

  ghost predicate Sorted<T>(le: (T, T) -> bool, xs: seq<T>) {
    forall i, j :: 0 <= i < j < |xs| ==> le(xs[i], xs[j])
  }

  predicate Distinct<T(==)>(xs: seq<T>) {
    forall i, j :: 0 <= i < j < |xs| ==> xs[i] != xs[j]
  }

  function Elements<T>(xs: seq<T>): (s: set<T>) {
    set x | x in xs
  }

  /** `xs` lists the set `s`, each element once, in order: what `sorted(s)` returns. */
  ghost predicate Lists<T>(le: (T, T) -> bool, xs: seq<T>, s: set<T>) {
    Sorted(le, xs) && Distinct(xs) && Elements(xs) == s
  }

  // ----- sorting a set ------------------------------------------------------------------

  lemma {:induction false} Least<T(!new)>(le: (T, T) -> bool, s: set<T>) returns (m: T)
    requires PreOrder(le) && s != {}
    ensures m in s && forall x :: x in s ==> le(m, x)
  {
    var y :| y in s;
    assert le(y, y);
    var rest := s - {y};
    if rest == {} {
      m := y;
    } else {
      m := Least(le, rest);
      if le(y, m) {
        m := y;
      }
    }
    assert forall x :: x in s ==> x == y || x in rest;
  }

  lemma LeastExists<T(!new)>(le: (T, T) -> bool, s: set<T>)
    requires PreOrder(le) && s != {}
    ensures exists m :: m in s && forall x :: x in s ==> le(m, x)
  {
    var m := Least(le, s);
  }

  ghost function Listing<T(!new)>(le: (T, T) -> bool, s: set<T>): (xs: seq<T>)
    requires PreOrder(le)
    decreases |s|
  {
    if s == {} then []
    else
      LeastExists(le, s);
      var m :| m in s && forall x :: x in s ==> le(m, x);
      [m] + Listing(le, s - {m})
  }

  lemma {:induction false} ListingLists<T(!new)>(le: (T, T) -> bool, s: set<T>)
    requires PreOrder(le)
    ensures Lists(le, Listing(le, s), s)
    decreases |s|
  {
    if s != {} {
      var xs := Listing(le, s);
      ListingLists(le, s - {xs[0]});
      assert xs == [xs[0]] + xs[1..];
      assert Elements(xs) == {xs[0]} + Elements(xs[1..]);
      forall i, j | 0 <= i < j < |xs|
        ensures le(xs[i], xs[j]) && xs[i] != xs[j]
      {
        assert xs[j] == xs[1..][j - 1] && xs[j] in Elements(xs[1..]);
        if i > 0 {
          assert xs[i] == xs[1..][i - 1];
        }
      }
    }
  }

  /** A set has one sorted listing, so `sorted` cannot depend on the order a set is walked in. */
  lemma {:induction false} ListingUnique<T(!new)>(le: (T, T) -> bool, xs: seq<T>, ys: seq<T>, s: set<T>)
    requires TotalOrder(le)
    requires Lists(le, xs, s) && Lists(le, ys, s)
    ensures xs == ys
  {
    EmptyElements(xs);
    EmptyElements(ys);
    if s != {} {
      HeadIsLeast(le, xs, s, ys[0]);
      HeadIsLeast(le, ys, s, xs[0]);
      var rest := s - {xs[0]};
      TailLists(le, xs, s);
      TailLists(le, ys, s);
      ListingUnique(le, xs[1..], ys[1..], rest);
      assert xs == [xs[0]] + xs[1..] && ys == [ys[0]] + ys[1..];
    }
  }

  lemma EmptyElements<T>(xs: seq<T>)
    ensures Elements(xs) == {} <==> xs == []
  {
    if xs != [] { assert xs[0] in Elements(xs); }
  }

  lemma HeadIsLeast<T(!new)>(le: (T, T) -> bool, xs: seq<T>, s: set<T>, x: T)
    requires PreOrder(le) && Lists(le, xs, s) && (x in s || x in xs)
    ensures xs != [] && le(xs[0], x)
  {
    assert x in Elements(xs);
    var i :| 0 <= i < |xs| && xs[i] == x;
    assert le(x, x);
    if i > 0 { assert le(xs[0], xs[i]); }
  }

  lemma TailLists<T(!new)>(le: (T, T) -> bool, xs: seq<T>, s: set<T>)
    requires Lists(le, xs, s) && xs != []
    ensures Lists(le, xs[1..], s - {xs[0]})
  {
    forall i, j | 0 <= i < j < |xs[1..]|
      ensures le(xs[1..][i], xs[1..][j]) && xs[1..][i] != xs[1..][j]
    {
      assert xs[1..][i] == xs[i + 1] && xs[1..][j] == xs[j + 1];
    }
    forall x
      ensures x in Elements(xs[1..]) <==> x in s - {xs[0]}
    {
      if x in xs[1..] {
        var i :| 0 <= i < |xs[1..]| && xs[1..][i] == x;
        assert x == xs[i + 1] && xs[0] != xs[i + 1];
      }
      if x in s - {xs[0]} {
        assert x in xs;
        var i :| 0 <= i < |xs| && xs[i] == x;
        assert x == xs[1..][i - 1];
      }
    }
  }

  /** `sorted(s)` for a set or the keys of a dictionary. */
  method SortSet<T(!new,==)>(le: (T, T) -> bool, s: set<T>) returns (xs: seq<T>)
    requires TotalOrder(le)
    ensures xs == Listing(le, s)
  {
    xs := [];
    var rest := s;
    while rest != {}
      invariant rest <= s
      invariant Lists(le, xs, s - rest)
      invariant forall x, y :: x in xs && y in rest ==> le(x, y)
      decreases |rest|
    {
      LeastExists(le, rest);
      var m :| m in rest && forall x :: x in rest ==> le(m, x);
      assert Lists(le, xs + [m], (s - rest) + {m}) by { AppendLists(le, xs, s - rest, m); }
      assert s - (rest - {m}) == (s - rest) + {m};
      xs := xs + [m];
      rest := rest - {m};
    }
    assert s - rest == s;
    ListingLists(le, s);
    ListingUnique(le, xs, Listing(le, s), s);
  }

  lemma AppendLists<T(!new)>(le: (T, T) -> bool, xs: seq<T>, s: set<T>, m: T)
    requires Lists(le, xs, s) && m !in s && forall x :: x in xs ==> le(x, m)
    ensures Lists(le, xs + [m], s + {m})
  {
    var ys := xs + [m];
    assert Elements(ys) == Elements(xs) + {m};
    forall i, j | 0 <= i < j < |ys|
      ensures le(ys[i], ys[j]) && ys[i] != ys[j]
    {
      assert ys[i] in xs;
      assert ys[i] in Elements(xs);
    }
  }

  // ----- picking from a list --------------------------------------------------------------

  /** `[x for x in xs if p(x)]`. */
  function Filtered<T>(xs: seq<T>, p: T -> bool): seq<T> {
    if xs == [] then [] else if p(xs[0]) then [xs[0]] + Filtered(xs[1..], p) else Filtered(xs[1..], p)
  }

  lemma {:induction false} FilteredFrom<T>(xs: seq<T>, p: T -> bool)
    ensures forall x :: x in Filtered(xs, p) <==> x in xs && p(x)
  {
    if xs != [] {
      FilteredFrom(xs[1..], p);
      assert xs == [xs[0]] + xs[1..];
      assert forall x :: x in xs <==> x == xs[0] || x in xs[1..];
    }
  }

  // ----- sorting a list by a key ----------------------------------------------------------

  function Insert<T>(le: (T, T) -> bool, x: T, xs: seq<T>): (ys: seq<T>)
    ensures |ys| == |xs| + 1
  {
    if xs == [] || le(x, xs[0]) then [x] + xs else [xs[0]] + Insert(le, x, xs[1..])
  }

  /** `sorted(xs, key=...)`: a later element never overtakes an equal earlier one. */
  function Sort<T>(le: (T, T) -> bool, xs: seq<T>): (ys: seq<T>)
    ensures |ys| == |xs|
  {
    if xs == [] then [] else Insert(le, xs[0], Sort(le, xs[1..]))
  }

  lemma {:induction false} InsertCorrect<T(!new)>(le: (T, T) -> bool, x: T, xs: seq<T>)
    requires PreOrder(le) && Sorted(le, xs)
    ensures Sorted(le, Insert(le, x, xs))
    ensures multiset(Insert(le, x, xs)) == multiset(xs) + multiset{x}
  {
    if xs != [] {
      assert xs == [xs[0]] + xs[1..];
      if !le(x, xs[0]) {
        var tail := Insert(le, x, xs[1..]);
        InsertCorrect(le, x, xs[1..]);
        forall j | 0 <= j < |tail|
          ensures le(xs[0], tail[j])
        {
          assert tail[j] in multiset(tail);
          assert tail[j] == x || tail[j] in xs[1..];
        }
      } else {
        forall j | 0 <= j < |xs|
          ensures le(x, xs[j])
        {
          if j > 0 { assert le(xs[0], xs[j]); }
        }
      }
    }
  }

  lemma {:induction false} SortCorrect<T(!new)>(le: (T, T) -> bool, xs: seq<T>)
    requires PreOrder(le)
    ensures Sorted(le, Sort(le, xs))
    ensures multiset(Sort(le, xs)) == multiset(xs)
  {
    if xs != [] {
      assert xs == [xs[0]] + xs[1..];
      SortCorrect(le, xs[1..]);
      InsertCorrect(le, xs[0], Sort(le, xs[1..]));
    }
  }

  /** Elements that tie keep their order. */
  lemma {:induction false} InsertKeepsTies<T(!new)>(le: (T, T) -> bool, x: T, xs: seq<T>, p: T -> bool)
    requires forall a, b :: p(a) && p(b) ==> le(a, b)
    ensures Filtered(Insert(le, x, xs), p) == (if p(x) then [x] else []) + Filtered(xs, p)
  {
    if xs == [] || le(x, xs[0]) {
      assert ([x] + xs)[1..] == xs;
    } else {
      InsertKeepsTies(le, x, xs[1..], p);
      assert ([xs[0]] + Insert(le, x, xs[1..]))[1..] == Insert(le, x, xs[1..]);
    }
  }

  lemma {:induction false} SortKeepsTies<T(!new)>(le: (T, T) -> bool, xs: seq<T>, p: T -> bool)
    requires forall a, b :: p(a) && p(b) ==> le(a, b)
    ensures Filtered(Sort(le, xs), p) == Filtered(xs, p)
  {
    if xs != [] {
      SortKeepsTies(le, xs[1..], p);
      InsertKeepsTies(le, xs[0], Sort(le, xs[1..]), p);
    }
  }

  // ----- Python's order on strings --------------------------------------------------------

  /** Code-point order. */
  predicate StringLe(a: string, b: string) {
    a == [] || (b != [] && (a[0] < b[0] || (a[0] == b[0] && StringLe(a[1..], b[1..]))))
  }

  lemma {:induction false} StringLeTransitive(a: string, b: string, c: string)
    requires StringLe(a, b) && StringLe(b, c)
    ensures StringLe(a, c)
  {
    if a != [] && a[0] == b[0] == c[0] {
      StringLeTransitive(a[1..], b[1..], c[1..]);
    }
  }

  lemma {:induction false} StringLeConnected(a: string, b: string)
    ensures StringLe(a, b) || StringLe(b, a)
  {
    if a != [] && b != [] && a[0] == b[0] {
      StringLeConnected(a[1..], b[1..]);
    }
  }

  lemma {:induction false} StringLeAntiSymmetric(a: string, b: string)
    requires StringLe(a, b) && StringLe(b, a)
    ensures a == b
  {
    if a != [] && b != [] {
      StringLeAntiSymmetric(a[1..], b[1..]);
      assert a == [a[0]] + a[1..] && b == [b[0]] + b[1..];
    }
  }

  lemma StringLeTotal()
    ensures TotalOrder(StringLe)
  {
    forall a: string, b: string, c: string | StringLe(a, b) && StringLe(b, c)
      ensures StringLe(a, c)
    {
      StringLeTransitive(a, b, c);
    }
    forall a: string, b: string
      ensures StringLe(a, b) || StringLe(b, a)
    {
      StringLeConnected(a, b);
    }
    forall a: string, b: string | StringLe(a, b) && StringLe(b, a)
      ensures a == b
    {
      StringLeAntiSymmetric(a, b);
    }
  }
}
