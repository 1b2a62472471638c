/**
 Comparing ontology snapshots (job_ftch/application/ontology_snapshot.py): the recursive diff of two JSON
 values, and the report of records to look at again. A change keeps the list of keys that leads to it;
 `Path` is the text the source makes of that list.
 */
module OntologySnapshot {
  import opened Wrappers
  import opened Ordering

  datatype Json =
    | Null
    | Bool(b: bool)
    | Int(n: int)
    | Float(x: real)
    | Str(s: string)
    | Arr(items: seq<Json>)
    | Obj(fields: map<string, Json>)

  datatype Change = Change(keys: seq<string>, before: Json, after: Json)

  /** `json.dumps` with sorted keys, and `str.casefold`. */
  datatype Text = Text(dump: Json -> string, fold: string -> string)

  // ----- values -----------------------------------------------------------------------------------

  /** Python counts True as 1 and False as 0, and compares integers and floats by value. */
  function Number(j: Json): Option<real> {
    match j
    case Bool(b) => Some(if b then 1.0 else 0.0)
    case Int(n) => Some(n as real)
    case Float(x) => Some(x)
    case _ => None
  }

  /** Python's `==` on loaded JSON. */
  predicate Equal(a: Json, b: Json) {
    match (a, b)
    case (Obj(m), Obj(n)) => m.Keys == n.Keys && forall k :: k in m && k in n ==> Equal(m[k], n[k])
    case (Arr(xs), Arr(ys)) => |xs| == |ys| && forall i :: 0 <= i < |xs| && i < |ys| ==> Equal(xs[i], ys[i])
    case _ => a == b || (Number(a).Some? && Number(a) == Number(b))
  }

  /** `m.get(k)`. */
  function Get(m: map<string, Json>, k: string): Json { if k in m then m[k] else Null }

  function Show(text: Text, j: Json): Json {
    if j.Arr? || j.Obj? then Str(text.dump(j)) else j
  }

  function Path(keys: seq<string>): string { if keys == [] then "/" else Slashed(keys) }

  function Slashed(keys: seq<string>): string {
    if keys == [] then "" else Slashed(keys[..|keys| - 1]) + ['/'] + keys[|keys| - 1]
  }

  /** How deeply objects are nested. */
  ghost function Height(j: Json): nat
    decreases j, 1, 0
  {
    if j.Obj? then 1 + Tallest(j, j.fields.Keys) else 0
  }

  ghost function Tallest(j: Json, keys: set<string>): (h: nat)
    requires j.Obj? && keys <= j.fields.Keys
    ensures forall k :: k in keys ==> Height(j.fields[k]) <= h
    decreases j, 0, |keys|
  {
    if keys == {} then 0
    else
      var k :| k in keys;
      var rest := Tallest(j, keys - {k});
      if rest < Height(j.fields[k]) then Height(j.fields[k]) else rest
  }

  lemma ChildIsLower(m: map<string, Json>, k: string)
    ensures Height(Get(m, k)) < Height(Obj(m))
  {
    var j := Obj(m);
    assert Height(j) == 1 + Tallest(j, j.fields.Keys);
  }

  // ----- the diff ---------------------------------------------------------------------------------

  ghost function Keys(m: map<string, Json>, n: map<string, Json>): seq<string> {
    StringLeTotal();
    Listing(StringLe, m.Keys + n.Keys)
  }

  /** `_diff_values`. */
  ghost function Diff(text: Text, a: Json, b: Json, at: seq<string>): seq<Change>
    decreases Height(a) + Height(b), 1, 0
  {
    if a.Obj? && b.Obj? then DiffKeys(text, a.fields, b.fields, Keys(a.fields, b.fields), at)
    else if Equal(a, b) then []
    else [Change(at, Show(text, a), Show(text, b))]
  }

  ghost function DiffKeys(
    text: Text, m: map<string, Json>, n: map<string, Json>, keys: seq<string>, at: seq<string>): seq<Change>
    decreases Height(Obj(m)) + Height(Obj(n)), 0, |keys|
  {
    if keys == [] then []
    else
      var last := keys[|keys| - 1];
      ChildIsLower(m, last);
      ChildIsLower(n, last);
      DiffKeys(text, m, n, keys[..|keys| - 1], at) + Diff(text, Get(m, last), Get(n, last), at + [last])
  }

  method DiffValues(text: Text, a: Json, b: Json, at: seq<string>) returns (changes: seq<Change>)
    ensures changes == Diff(text, a, b, at)
    decreases Height(a) + Height(b)
  {
    if a.Obj? && b.Obj? {
      StringLeTotal();
      var keys := SortSet(StringLe, a.fields.Keys + b.fields.Keys);
      changes := [];
      var i := 0;
      while i < |keys|
        invariant 0 <= i <= |keys|
        invariant changes == DiffKeys(text, a.fields, b.fields, keys[..i], at)
      {
        ChildIsLower(a.fields, keys[i]);
        ChildIsLower(b.fields, keys[i]);
        var more := DiffValues(text, Get(a.fields, keys[i]), Get(b.fields, keys[i]), at + [keys[i]]);
        assert keys[..i + 1][..i] == keys[..i];
        changes := changes + more;
        i := i + 1;
      }
      assert keys[..|keys|] == keys;
      return;
    }
    changes := if Equal(a, b) then [] else [Change(at, Show(text, a), Show(text, b))];
  }

  lemma {:induction false} InDiffKeys(
    text: Text, m: map<string, Json>, n: map<string, Json>, keys: seq<string>, at: seq<string>)
    ensures forall c :: c in DiffKeys(text, m, n, keys, at) <==>
              exists k :: k in keys && c in Diff(text, Get(m, k), Get(n, k), at + [k])
    decreases |keys|
  {
    if keys != [] {
      var before, last := keys[..|keys| - 1], keys[|keys| - 1];
      InDiffKeys(text, m, n, before, at);
      assert keys == before + [last];
    }
  }

  lemma KeysAreUnion(m: map<string, Json>, n: map<string, Json>)
    ensures forall k :: k in Keys(m, n) <==> k in m || k in n
    ensures Sorted(StringLe, Keys(m, n)) && Distinct(Keys(m, n))
  {
    StringLeTotal();
    ListingLists(StringLe, m.Keys + n.Keys);
    forall k
      ensures k in Keys(m, n) <==> k in m || k in n
    {
      assert k in Keys(m, n) <==> k in Elements(Keys(m, n));
    }
  }

  /** The changes of two objects are those of the values under their keys. */
  lemma InDiff(text: Text, a: Json, b: Json, at: seq<string>, c: Change)
    requires a.Obj? && b.Obj?
    ensures c in Diff(text, a, b, at) <==>
              exists k :: (k in a.fields || k in b.fields)
                && c in Diff(text, Get(a.fields, k), Get(b.fields, k), at + [k])
  {
    InDiffKeys(text, a.fields, b.fields, Keys(a.fields, b.fields), at);
    KeysAreUnion(a.fields, b.fields);
  }

  // ----- the diff is exact ------------------------------------------------------------------------

  function Child(j: Json, k: string): Json { if j.Obj? then Get(j.fields, k) else Null }

  /** The value a list of keys leads to; a missing key and null are the same. */
  function Lookup(j: Json, keys: seq<string>): Json
    decreases |keys|
  {
    if keys == [] then j else Lookup(Child(j, keys[0]), keys[1..])
  }

  /** Down to `keys`, both sides are objects, and each key is on one of them. */
  predicate Reached(a: Json, b: Json, keys: seq<string>)
    decreases |keys|
  {
    keys == [] ||
    (&& a.Obj? && b.Obj? && (keys[0] in a.fields || keys[0] in b.fields)
     && Reached(Child(a, keys[0]), Child(b, keys[0]), keys[1..]))
  }

  predicate Differ(a: Json, b: Json) { !(a.Obj? && b.Obj?) && !Equal(a, b) }

  lemma {:induction false} ChangesAreBelow(text: Text, a: Json, b: Json, at: seq<string>, c: Change)
    requires c in Diff(text, a, b, at)
    ensures at <= c.keys
    decreases Height(a) + Height(b)
  {
    if a.Obj? && b.Obj? {
      InDiff(text, a, b, at, c);
      var k :| (k in a.fields || k in b.fields) && c in Diff(text, Get(a.fields, k), Get(b.fields, k), at + [k]);
      ChildIsLower(a.fields, k);
      ChildIsLower(b.fields, k);
      ChangesAreBelow(text, Get(a.fields, k), Get(b.fields, k), at + [k], c);
      assert at + [k] <= c.keys;
    }
  }

  /** The expected change at `keys` below `at`. */
  predicate Expected(text: Text, a: Json, b: Json, keys: seq<string>, at: seq<string>, c: Change) {
    && Reached(a, b, keys) && Differ(Lookup(a, keys), Lookup(b, keys))
    && c == Change(at + keys, Show(text, Lookup(a, keys)), Show(text, Lookup(b, keys)))
  }

  lemma {:induction false} ChangeIsExpected(text: Text, a: Json, b: Json, at: seq<string>, c: Change, keys: seq<string>)
    requires at + keys == c.keys
    ensures c in Diff(text, a, b, at) <==> Expected(text, a, b, keys, at, c)
    decreases Height(a) + Height(b)
  {
    if a.Obj? && b.Obj? {
      InDiff(text, a, b, at, c);
      if keys == [] {
        if c in Diff(text, a, b, at) {
          NoChangeAtObjects(text, a, b, at, c);
        }
      } else {
        var k, rest := keys[0], keys[1..];
        assert keys == [k] + rest;
        assert (at + [k]) + rest == c.keys;
        ChildIsLower(a.fields, k);
        ChildIsLower(b.fields, k);
        ChangeIsExpected(text, Get(a.fields, k), Get(b.fields, k), at + [k], c, rest);
        if c in Diff(text, a, b, at) {
          var j :| (j in a.fields || j in b.fields) && c in Diff(text, Get(a.fields, j), Get(b.fields, j), at + [j]);
          ChangesAreBelow(text, Get(a.fields, j), Get(b.fields, j), at + [j], c);
          assert j == c.keys[|at|] == k;
        }
      }
    } else if keys == [] {
      assert at + keys == at;
    } else {
      assert |c.keys| > |at|;
    }
  }

  lemma NoChangeAtObjects(text: Text, a: Json, b: Json, at: seq<string>, c: Change)
    requires a.Obj? && b.Obj? && c in Diff(text, a, b, at)
    ensures |c.keys| > |at|
  {
    InDiff(text, a, b, at, c);
    var k :| (k in a.fields || k in b.fields) && c in Diff(text, Get(a.fields, k), Get(b.fields, k), at + [k]);
    ChangesAreBelow(text, Get(a.fields, k), Get(b.fields, k), at + [k], c);
  }

  /** A change is reported exactly where both sides are objects all the way down and the values found there
      differ, and it shows those two values. */
  lemma DiffIsExact(text: Text, a: Json, b: Json, c: Change)
    ensures c in Diff(text, a, b, []) <==> Expected(text, a, b, c.keys, [], c)
  {
    assert [] + c.keys == c.keys;
    ChangeIsExpected(text, a, b, [], c, c.keys);
  }

  // ----- the diff is complete ---------------------------------------------------------------------

  /** Null-valued keys removed, objects inside arrays left alone. */
  function Strip(j: Json): Json {
    match j
    case Obj(m) => Obj(map k | k in m && m[k] != Null :: Strip(m[k]))
    case _ => j
  }

  lemma StrippedField(m: map<string, Json>, k: string)
    ensures k in Strip(Obj(m)).fields <==> Get(m, k) != Null
    ensures Get(m, k) != Null ==> Strip(Obj(m)).fields[k] == Strip(Get(m, k))
    ensures Get(Strip(Obj(m)).fields, k) == Strip(Get(m, k))
  {
  }

  /** Objects without null values are equal exactly when every key looks the same on both sides. */
  lemma EqualByKey(m: map<string, Json>, n: map<string, Json>)
    requires (forall k :: k in m ==> m[k] != Null) && forall k :: k in n ==> n[k] != Null
    ensures Equal(Obj(m), Obj(n)) <==> forall k :: k in m || k in n ==> Equal(Get(m, k), Get(n, k))
  {
    if forall k :: k in m || k in n ==> Equal(Get(m, k), Get(n, k)) {
      forall k
        ensures k in m <==> k in n
      {
        assert k in m || k in n ==> Equal(Get(m, k), Get(n, k));
      }
      assert m.Keys == n.Keys;
      assert forall k :: k in m && k in n ==> Equal(Get(m, k), Get(n, k));
    } else {
      var k :| (k in m || k in n) && !Equal(Get(m, k), Get(n, k));
      assert k in m.Keys <==> k in m;
      assert k in n.Keys <==> k in n;
    }
  }

  lemma EqualObjects(m: map<string, Json>, n: map<string, Json>)
    ensures Equal(Strip(Obj(m)), Strip(Obj(n))) <==>
              forall k :: k in m || k in n ==> Equal(Strip(Get(m, k)), Strip(Get(n, k)))
  {
    var m', n' := Strip(Obj(m)).fields, Strip(Obj(n)).fields;
    forall k
      ensures Get(m', k) == Strip(Get(m, k)) && Get(n', k) == Strip(Get(n, k))
      ensures (k in m' ==> k in m && m'[k] != Null) && (k in n' ==> k in n && n'[k] != Null)
      ensures k !in m' && k !in n' ==> Equal(Get(m', k), Get(n', k))
    {
      StrippedField(m, k);
      StrippedField(n, k);
    }
    EqualByKey(m', n');
    if forall k :: k in m' || k in n' ==> Equal(Get(m', k), Get(n', k)) {
      forall k | k in m || k in n
        ensures Equal(Strip(Get(m, k)), Strip(Get(n, k)))
      {
        assert Equal(Get(m', k), Get(n', k));
      }
    } else {
      var k :| (k in m' || k in n') && !Equal(Get(m', k), Get(n', k));
      assert k in m || k in n;
    }
  }

  lemma {:induction false} NoDiffKeys(
    text: Text, m: map<string, Json>, n: map<string, Json>, keys: seq<string>, at: seq<string>)
    ensures DiffKeys(text, m, n, keys, at) == [] <==>
              forall k :: k in keys ==> Diff(text, Get(m, k), Get(n, k), at + [k]) == []
    decreases |keys|
  {
    if keys != [] {
      var before, last := keys[..|keys| - 1], keys[|keys| - 1];
      NoDiffKeys(text, m, n, before, at);
      assert keys == before + [last];
    }
  }

  /** The change list is empty exactly when the values are equal up to null-valued against absent keys. */
  lemma {:induction false} DiffIsComplete(text: Text, a: Json, b: Json, at: seq<string>)
    ensures Diff(text, a, b, at) == [] <==> Equal(Strip(a), Strip(b))
    decreases Height(a) + Height(b)
  {
    if a.Obj? && b.Obj? {
      var m, n := a.fields, b.fields;
      NoDiffKeys(text, m, n, Keys(m, n), at);
      KeysAreUnion(m, n);
      EqualObjects(m, n);
      forall k | k in m || k in n
        ensures Diff(text, Get(m, k), Get(n, k), at + [k]) == [] <==> Equal(Strip(Get(m, k)), Strip(Get(n, k)))
      {
        ChildIsLower(m, k);
        ChildIsLower(n, k);
        DiffIsComplete(text, Get(m, k), Get(n, k), at + [k]);
      }
    }
  }

  /** So a switch from 1 to true goes unreported. */
  lemma TrueForOneGoesUnseen(text: Text, k: string)
    ensures Diff(text, Obj(map[k := Int(1)]), Obj(map[k := Bool(true)]), []) == []
  {
    var a, b := map[k := Int(1)], map[k := Bool(true)];
    EqualObjects(a, b);
    DiffIsComplete(text, Obj(a), Obj(b), []);
  }

  // ----- the diff is symmetric --------------------------------------------------------------------

  lemma {:induction false} EqualIsSymmetric(a: Json, b: Json)
    ensures Equal(a, b) <==> Equal(b, a)
  {
    match (a, b)
    case (Obj(m), Obj(n)) =>
      forall k | k in m && k in n
        ensures Equal(m[k], n[k]) <==> Equal(n[k], m[k])
      {
        EqualIsSymmetric(m[k], n[k]);
      }
    case (Arr(xs), Arr(ys)) =>
      forall i | 0 <= i < |xs| && i < |ys|
        ensures Equal(xs[i], ys[i]) <==> Equal(ys[i], xs[i])
      {
        EqualIsSymmetric(xs[i], ys[i]);
      }
    case _ =>
  }

  function Swap(c: Change): Change { Change(c.keys, c.after, c.before) }

  function SwapAll(cs: seq<Change>): (ss: seq<Change>)
    ensures |ss| == |cs| && forall i :: 0 <= i < |cs| ==> ss[i] == Swap(cs[i])
  {
    if cs == [] then [] else SwapAll(cs[..|cs| - 1]) + [Swap(cs[|cs| - 1])]
  }

  lemma SwapAppend(xs: seq<Change>, ys: seq<Change>)
    ensures SwapAll(xs + ys) == SwapAll(xs) + SwapAll(ys)
  {
  }

  lemma {:induction false} DiffKeysSwap(
    text: Text, m: map<string, Json>, n: map<string, Json>, keys: seq<string>, at: seq<string>)
    ensures DiffKeys(text, n, m, keys, at) == SwapAll(DiffKeys(text, m, n, keys, at))
    decreases Height(Obj(m)) + Height(Obj(n)), 0, |keys|
  {
    if keys != [] {
      var before, last := keys[..|keys| - 1], keys[|keys| - 1];
      DiffKeysSwap(text, m, n, before, at);
      ChildIsLower(m, last);
      ChildIsLower(n, last);
      DiffIsSymmetric(text, Get(m, last), Get(n, last), at + [last]);
      SwapAppend(DiffKeys(text, m, n, before, at), Diff(text, Get(m, last), Get(n, last), at + [last]));
    }
  }

  /** Comparing the other way round gives the same list with before and after exchanged. */
  lemma {:induction false} DiffIsSymmetric(text: Text, a: Json, b: Json, at: seq<string>)
    ensures Diff(text, b, a, at) == SwapAll(Diff(text, a, b, at))
    decreases Height(a) + Height(b), 1, 0
  {
    if a.Obj? && b.Obj? {
      assert a.fields.Keys + b.fields.Keys == b.fields.Keys + a.fields.Keys;
      DiffKeysSwap(text, a.fields, b.fields, Keys(a.fields, b.fields), at);
    } else {
      EqualIsSymmetric(a, b);
    }
  }

  // ----- the order of the changes -----------------------------------------------------------------

  /** Lists of keys compared key by key. */
  predicate KeysBefore(xs: seq<string>, ys: seq<string>) {
    ys != [] && (xs == [] || (if xs[0] != ys[0] then StringLe(xs[0], ys[0]) else KeysBefore(xs[1..], ys[1..])))
  }

  lemma {:induction false} KeysBeforeBelow(at: seq<string>, xs: seq<string>, ys: seq<string>)
    ensures KeysBefore(at + xs, at + ys) <==> KeysBefore(xs, ys)
  {
    if at == [] {
      assert at + xs == xs && at + ys == ys;
    } else {
      assert (at + xs)[1..] == at[1..] + xs && (at + ys)[1..] == at[1..] + ys;
      KeysBeforeBelow(at[1..], xs, ys);
    }
  }

  lemma SiblingsInOrder(at: seq<string>, j: string, k: string, xs: seq<string>, ys: seq<string>)
    requires StringLe(j, k) && j != k && at + [j] <= xs && at + [k] <= ys
    ensures KeysBefore(xs, ys)
  {
    var xs', ys' := xs[|at|..], ys[|at|..];
    assert xs == at + xs' && ys == at + ys';
    assert xs'[0] == j && ys'[0] == k;
    KeysBeforeBelow(at, xs', ys');
  }

  ghost predicate InOrder(cs: seq<Change>) {
    forall i, j :: 0 <= i < j < |cs| ==> KeysBefore(cs[i].keys, cs[j].keys)
  }

  lemma InOrderParts(xs: seq<Change>, ys: seq<Change>)
    requires InOrder(xs) && InOrder(ys) && forall c, d :: c in xs && d in ys ==> KeysBefore(c.keys, d.keys)
    ensures InOrder(xs + ys)
  {
  }

  lemma {:induction false} DiffKeysInOrder(
    text: Text, m: map<string, Json>, n: map<string, Json>, keys: seq<string>, at: seq<string>)
    requires Sorted(StringLe, keys) && Distinct(keys)
    ensures InOrder(DiffKeys(text, m, n, keys, at))
    decreases Height(Obj(m)) + Height(Obj(n)), 0, |keys|
  {
    if keys != [] {
      var k := |keys| - 1;
      var before, last := keys[..k], keys[k];
      DiffKeysInOrder(text, m, n, before, at);
      ChildIsLower(m, last);
      ChildIsLower(n, last);
      var xs, ys := DiffKeys(text, m, n, before, at), Diff(text, Get(m, last), Get(n, last), at + [last]);
      DiffInOrder(text, Get(m, last), Get(n, last), at + [last]);
      InDiffKeys(text, m, n, before, at);
      forall c, d | c in xs && d in ys
        ensures KeysBefore(c.keys, d.keys)
      {
        var j :| j in before && c in Diff(text, Get(m, j), Get(n, j), at + [j]);
        var i :| 0 <= i < k && before[i] == j;
        assert keys[i] == j;
        ChangesAreBelow(text, Get(m, j), Get(n, j), at + [j], c);
        ChangesAreBelow(text, Get(m, last), Get(n, last), at + [last], d);
        SiblingsInOrder(at, j, last, c.keys, d.keys);
      }
      InOrderParts(xs, ys);
    }
  }

  /** The changes are in the order of their keys, and no two are at the same place. */
  lemma {:induction false} DiffInOrder(text: Text, a: Json, b: Json, at: seq<string>)
    ensures InOrder(Diff(text, a, b, at))
    decreases Height(a) + Height(b), 1, 0
  {
    if a.Obj? && b.Obj? {
      KeysAreUnion(a.fields, b.fields);
      DiffKeysInOrder(text, a.fields, b.fields, Keys(a.fields, b.fields), at);
    }
  }

  lemma {:induction false} KeysBeforeIsStrict(xs: seq<string>)
    ensures !KeysBefore(xs, xs)
  {
    if xs != [] {
      KeysBeforeIsStrict(xs[1..]);
    }
  }

  lemma OneChangePerPlace(text: Text, a: Json, b: Json, i: nat, j: nat)
    requires i < j < |Diff(text, a, b, [])|
    ensures Diff(text, a, b, [])[i].keys != Diff(text, a, b, [])[j].keys
  {
    DiffInOrder(text, a, b, []);
    KeysBeforeIsStrict(Diff(text, a, b, [])[i].keys);
  }

  // ----- printed paths ----------------------------------------------------------------------------

  /** One more character: a slash opens the next part. */
  function Grow(parts: seq<string>, c: char): (grown: seq<string>)
    requires parts != []
    ensures grown != []
  {
    var last := |parts| - 1;
    if c == '/' then parts + [""] else parts[..last] + [parts[last] + [c]]
  }

  /** The parts of a key between its slashes. */
  function Split(key: string): (parts: seq<string>)
    ensures parts != []
  {
    if key == "" then [""] else Grow(Split(key[..|key| - 1]), key[|key| - 1])
  }

  function Parts(keys: seq<string>): seq<string> {
    if keys == [] then [] else Parts(keys[..|keys| - 1]) + Split(keys[|keys| - 1])
  }

  /** What a printed path tells of its keys: their parts, where no key and one empty key look the same. */
  function Steps(keys: seq<string>): seq<string> { Parts(Rooted(keys)) }

  predicate Plain(key: string) { '/' !in key }

  predicate AllPlain(keys: seq<string>) { forall k :: k in keys ==> Plain(k) }

  lemma SplitNext(key: string, c: char)
    ensures Split(key + [c]) == Grow(Split(key), c)
  {
    assert (key + [c])[..|key|] == key;
  }

  lemma GrowRight(xs: seq<string>, ys: seq<string>, c: char)
    requires ys != []
    ensures Grow(xs + ys, c) == xs + Grow(ys, c)
  {
    assert (xs + ys)[..|xs| + |ys| - 1] == xs + ys[..|ys| - 1];
  }

  lemma {:induction false} SplitAtSlash(s: string, key: string)
    ensures Split(s + ['/'] + key) == Split(s) + Split(key)
  {
    if key == "" {
      assert s + ['/'] + key == s + ['/'];
      SplitNext(s, '/');
    } else {
      var before, c := key[..|key| - 1], key[|key| - 1];
      assert s + ['/'] + key == s + ['/'] + before + [c] && key == before + [c];
      SplitNext(s + ['/'] + before, c);
      SplitNext(before, c);
      SplitAtSlash(s, before);
      GrowRight(Split(s), Split(before), c);
    }
  }

  lemma {:induction false} SlashedSplits(keys: seq<string>)
    ensures Split(Slashed(keys)) == [""] + Parts(keys)
  {
    if keys != [] {
      var before, last := keys[..|keys| - 1], keys[|keys| - 1];
      SlashedSplits(before);
      SplitAtSlash(Slashed(before), last);
    }
  }

  lemma {:induction false} SlashedOfTwo(xs: seq<string>, ys: seq<string>)
    ensures Slashed(xs + ys) == Slashed(xs) + Slashed(ys)
  {
    if ys == [] {
      assert xs + ys == xs;
    } else {
      var n := |ys| - 1;
      assert (xs + ys)[..|xs| + n] == xs + ys[..n];
      SlashedOfTwo(xs, ys[..n]);
    }
  }

  lemma SlashedNext(keys: seq<string>, key: string)
    ensures Slashed(keys + [key]) == Slashed(keys) + ['/'] + key
  {
    assert (keys + [key])[..|keys|] == keys;
  }

  lemma SlashedOfGrown(parts: seq<string>, c: char)
    requires parts != []
    ensures Slashed(Grow(parts, c)) == Slashed(parts) + [c]
  {
    var before, last := parts[..|parts| - 1], parts[|parts| - 1];
    assert parts == before + [last];
    SlashedNext(before, last);
    SlashedNext(before, last + [c]);
    SlashedNext(parts, "");
  }

  lemma {:induction false} SlashedOfSplit(key: string)
    ensures Slashed(Split(key)) == ['/'] + key
  {
    if key == "" {
      SlashedNext([], "");
    } else {
      var before, c := key[..|key| - 1], key[|key| - 1];
      assert key == before + [c];
      SlashedOfSplit(before);
      SlashedOfGrown(Split(before), c);
    }
  }

  lemma {:induction false} SlashedOfParts(keys: seq<string>)
    ensures Slashed(Parts(keys)) == Slashed(keys)
  {
    if keys != [] {
      var before, last := keys[..|keys| - 1], keys[|keys| - 1];
      SlashedOfParts(before);
      SlashedOfSplit(last);
      SlashedOfTwo(Parts(before), Split(last));
    }
  }

  lemma {:induction false} PlainSplit(key: string)
    ensures Split(key) == [key] <==> Plain(key)
    ensures !Plain(key) ==> |Split(key)| >= 2
  {
    if key != "" {
      var n := |key| - 1;
      assert key == key[..n] + [key[n]];
      PlainSplit(key[..n]);
    }
  }

  lemma {:induction false} PlainParts(keys: seq<string>)
    requires AllPlain(keys)
    ensures Parts(keys) == keys
  {
    if keys != [] {
      var before, last := keys[..|keys| - 1], keys[|keys| - 1];
      assert keys == before + [last];
      PlainParts(before);
      PlainSplit(last);
    }
  }

  /** The keys with the root written as one empty key, which prints the same. */
  function Rooted(keys: seq<string>): seq<string> { if keys == [] then [""] else keys }

  lemma PathIsSlashed(keys: seq<string>)
    ensures Path(keys) == Slashed(Rooted(keys))
  {
    SlashedNext([], "");
  }

  lemma PathSteps(keys: seq<string>)
    ensures Split(Path(keys)) == [""] + Steps(keys) && Path(keys) == Slashed(Steps(keys))
  {
    PathIsSlashed(keys);
    SlashedSplits(Rooted(keys));
    SlashedOfParts(Rooted(keys));
  }

  /** Exactly: two places print as one path when their keys have the same parts, and only then. */
  lemma PathsAgreeExactly(xs: seq<string>, ys: seq<string>)
    ensures Path(xs) == Path(ys) <==> Steps(xs) == Steps(ys)
  {
    PathSteps(xs);
    PathSteps(ys);
    assert ([""] + Steps(xs))[1..] == Steps(xs) && ([""] + Steps(ys))[1..] == Steps(ys);
  }

  /** Without slashes in keys a path determines its place, except that the root and an empty key print alike. */
  lemma PathsOfPlainKeys(xs: seq<string>, ys: seq<string>)
    requires AllPlain(xs) && AllPlain(ys)
    ensures Path(xs) == Path(ys) <==> Rooted(xs) == Rooted(ys)
  {
    PathsAgreeExactly(xs, ys);
    PlainParts(Rooted(xs));
    PlainParts(Rooted(ys));
  }

  /** Exactly: a key prints like the list of its parts, which is another list when it has a slash. */
  lemma KeyPrintsAsParts(key: string)
    ensures Path([key]) == Path(Split(key))
    ensures Split(key) != [key] <==> !Plain(key)
  {
    PlainSplit(key);
    SlashedOfSplit(key);
    SlashedNext([], key);
  }

  /** In the change list of two snapshots no path is printed twice, if no key in it has a slash. */
  lemma OnePathPerPlace(text: Text, a: Json, b: Json, i: nat, j: nat)
    requires i < j < |Diff(text, a, b, [])|
    ensures var cs := Diff(text, a, b, []);
            AllPlain(cs[i].keys) && AllPlain(cs[j].keys) ==> Path(cs[i].keys) != Path(cs[j].keys)
  {
    var cs := Diff(text, a, b, []);
    OneChangePerPlace(text, a, b, i, j);
    if AllPlain(cs[i].keys) && AllPlain(cs[j].keys) {
      PathsOfPlainKeys(cs[i].keys, cs[j].keys);
    }
    if a.Obj? && b.Obj? {
      NoChangeAtObjects(text, a, b, [], cs[i]);
      NoChangeAtObjects(text, a, b, [], cs[j]);
    }
  }

  lemma BelowKey(a: Json, b: Json, k: string, rest: seq<string>)
    requires a.Obj? && b.Obj? && (k in a.fields || k in b.fields)
    ensures Reached(a, b, [k] + rest) <==> Reached(Get(a.fields, k), Get(b.fields, k), rest)
    ensures Lookup(a, [k] + rest) == Lookup(Get(a.fields, k), rest)
    ensures Lookup(b, [k] + rest) == Lookup(Get(b.fields, k), rest)
  {
    assert ([k] + rest)[1..] == rest;
  }

  lemma ReportedAt(text: Text, a: Json, b: Json, keys: seq<string>)
    requires Reached(a, b, keys) && Differ(Lookup(a, keys), Lookup(b, keys))
    ensures exists c :: c in Diff(text, a, b, []) && c.keys == keys
  {
    var c := Change(keys, Show(text, Lookup(a, keys)), Show(text, Lookup(b, keys)));
    assert [] + keys == keys;
    DiffIsExact(text, a, b, c);
  }

  lemma PathOfOne(key: string)
    ensures Path([key]) == Slashed([key]) == ['/'] + key
  {
    SlashedNext([], key);
    assert [] + [key] == [key] && Slashed([]) == [];
    assert [] + ['/'] + key == ['/'] + key;
  }

  lemma PathOfTwo(j: string, k: string)
    ensures Path([j] + [k]) == ['/'] + j + ['/'] + k
  {
    PathOfOne(j);
    SlashedNext([j], k);
  }

  lemma PrintsAsTwoKeys(j: string, k: string)
    ensures Path([j + ['/'] + k]) == Path([j] + [k]) && [j + ['/'] + k] != [j] + [k]
  {
    PathOfOne(j + ['/'] + k);
    PathOfTwo(j, k);
    assert ['/'] + (j + ['/'] + k) == ['/'] + j + ['/'] + k;
    assert |[j + ['/'] + k]| != |[j] + [k]|;
  }

  /** With a slash it can happen: the value under one key and the value two keys down have one path. */
  lemma PathsCollide(text: Text, j: string, k: string, x: Json, y: Json)
    requires Differ(x, Null) && Differ(y, Null)
    ensures var a, b := Obj(map[j + ['/'] + k := x, j := Obj(map[k := y])]), Obj(map[j := Obj(map[])]);
            exists c, d :: c in Diff(text, a, b, []) && d in Diff(text, a, b, [])
                           && c.keys != d.keys && Path(c.keys) == Path(d.keys)
  {
    var slashed := j + ['/'] + k;
    assert |slashed| > |j|;
    var inner, none: Json := Obj(map[k := y]), Obj(map[]);
    var a, b := Obj(map[slashed := x, j := inner]), Obj(map[j := none]);
    assert [slashed] + [] == [slashed] && [k] + [] == [k];
    BelowKey(a, b, slashed, []);
    ReportedAt(text, a, b, [slashed]);
    BelowKey(inner, none, k, []);
    BelowKey(a, b, j, [k]);
    ReportedAt(text, a, b, [j] + [k]);
    PrintsAsTwoKeys(j, k);
  }

  // ----- snapshots and the report -----------------------------------------------------------------

  datatype Snapshot = Snapshot(tenant: string, profile: string, version: string, payload: Json)

  datatype SnapshotDiff = SnapshotDiff(
    tenant: string, profile: string, previousVersion: string, currentVersion: string, changes: seq<Change>)

  datatype Item = Item(id: string, version: string, terms: seq<string>)

  datatype Affected = Affected(id: string, matched: seq<string>)

  datatype Report = Report(previousVersion: string, currentVersion: string, items: seq<Affected>)

  /** `diff_ontology_snapshots`. */
  method DiffSnapshots(text: Text, previous: Snapshot, current: Snapshot) returns (r: Result<SnapshotDiff>)
    ensures r.Success? <==> previous.tenant == current.tenant && previous.profile == current.profile
    ensures r.Success? ==> r.value == SnapshotDiff(previous.tenant, previous.profile, previous.version, current.version,
                                                   Diff(text, previous.payload, current.payload, []))
  {
    if previous.tenant != current.tenant || previous.profile != current.profile {
      return Failure("ontology snapshots must belong to the same tenant and profile");
    }
    var changes := DiffValues(text, previous.payload, current.payload, []);
    r := Success(SnapshotDiff(previous.tenant, previous.profile, previous.version, current.version, changes));
  }

  /** A text that counts as a term: not empty and not a rendered object or list. */
  predicate TermText(j: Json) { j.Str? && j.s != "" && j.s[0] != '{' && j.s[0] != '[' }

  /** `_changed_terms`. */
  function ChangedTerms(text: Text, changes: seq<Change>): set<string> {
    (set c | c in changes && TermText(c.before) :: text.fold(c.before.s))
    + (set c | c in changes && TermText(c.after) :: text.fold(c.after.s))
  }

  ghost function Matched(text: Text, changed: set<string>, item: Item): seq<string> {
    StringLeTotal();
    Filtered(Listing(StringLe, set t | t in item.terms :: text.fold(t)), t => t in changed)
  }

  ghost function AffectedItems(text: Text, changed: set<string>, items: seq<Item>): seq<Affected> {
    if items == [] then []
    else [Affected(items[0].id, Matched(text, changed, items[0]))] + AffectedItems(text, changed, items[1..])
  }

  predicate IdLe(a: Affected, b: Affected) { StringLe(a.id, b.id) }

  lemma IdLePreOrder()
    ensures PreOrder(IdLe)
  {
    StringLeTotal();
    forall a: Affected, b: Affected, c: Affected | IdLe(a, b) && IdLe(b, c)
      ensures IdLe(a, c)
    {
      StringLeTransitive(a.id, b.id, c.id);
    }
  }

  /** The records of the version before. */
  function PriorItems(diff: SnapshotDiff, items: seq<Item>): seq<Item> {
    Filtered(items, (i: Item) => i.version == diff.previousVersion)
  }

  /** `build_affected_item_report`. */
  ghost function AffectedReport(text: Text, diff: SnapshotDiff, items: seq<Item>): Report {
    var affected := AffectedItems(text, ChangedTerms(text, diff.changes), PriorItems(diff, items));
    Report(diff.previousVersion, diff.currentVersion, Sort(IdLe, affected))
  }

  lemma {:induction false} FilteredKeepsOrder<T(!new)>(le: (T, T) -> bool, xs: seq<T>, p: T -> bool)
    requires Sorted(le, xs) && Distinct(xs)
    ensures Sorted(le, Filtered(xs, p)) && Distinct(Filtered(xs, p))
  {
    if xs != [] {
      var rest := xs[1..];
      assert forall i :: 0 <= i < |rest| ==> rest[i] == xs[i + 1];
      FilteredKeepsOrder(le, rest, p);
      FilteredFrom(rest, p);
      var ys := Filtered(rest, p);
      forall i | 0 <= i < |ys|
        ensures le(xs[0], ys[i]) && xs[0] != ys[i]
      {
        assert ys[i] in ys;
        var j :| 0 <= j < |rest| && rest[j] == ys[i];
        assert xs[j + 1] == ys[i];
      }
    }
  }

  /** The matched terms of a record are its changed terms, each once and in order. */
  lemma MatchedIsExact(text: Text, changed: set<string>, item: Item)
    ensures Sorted(StringLe, Matched(text, changed, item)) && Distinct(Matched(text, changed, item))
    ensures forall t :: t in Matched(text, changed, item) <==>
              t in changed && exists term :: term in item.terms && text.fold(term) == t
  {
    StringLeTotal();
    var own := set t | t in item.terms :: text.fold(t);
    ListingLists(StringLe, own);
    FilteredKeepsOrder(StringLe, Listing(StringLe, own), t => t in changed);
    FilteredFrom(Listing(StringLe, own), t => t in changed);
    assert forall t :: t in Listing(StringLe, own) <==> t in Elements(Listing(StringLe, own));
  }

  lemma {:induction false} AffectedFrom(text: Text, changed: set<string>, items: seq<Item>)
    ensures |AffectedItems(text, changed, items)| == |items|
    ensures forall a :: a in AffectedItems(text, changed, items) <==>
              exists i :: i in items && a == Affected(i.id, Matched(text, changed, i))
  {
    if items != [] {
      AffectedFrom(text, changed, items[1..]);
      assert items == [items[0]] + items[1..];
      assert forall i :: i in items <==> i == items[0] || i in items[1..];
    }
  }

  /** The report lists every record of the previous version and no other, as often as it is given, by id. */
  lemma ReportIsExact(text: Text, diff: SnapshotDiff, items: seq<Item>)
    ensures var r := AffectedReport(text, diff, items);
            && Sorted(IdLe, r.items) && |r.items| == |PriorItems(diff, items)|
            && (forall a :: a in r.items <==> exists i ::
                  i in items && i.version == diff.previousVersion
                  && a == Affected(i.id, Matched(text, ChangedTerms(text, diff.changes), i)))
  {
    var changed := ChangedTerms(text, diff.changes);
    var affected := AffectedItems(text, changed, PriorItems(diff, items));
    IdLePreOrder();
    SortCorrect(IdLe, affected);
    AffectedFrom(text, changed, PriorItems(diff, items));
    FilteredFrom(items, (i: Item) => i.version == diff.previousVersion);
    forall a
      ensures a in Sort(IdLe, affected) <==> a in affected
    {
      assert a in Sort(IdLe, affected) <==> a in multiset(Sort(IdLe, affected));
      assert a in affected <==> a in multiset(affected);
    }
  }

  /** Records with one id stay in the order they were given. */
  lemma ReportKeepsTies(text: Text, diff: SnapshotDiff, items: seq<Item>, id: string)
    ensures Filtered(AffectedReport(text, diff, items).items, (a: Affected) => a.id == id)
         == Filtered(AffectedItems(text, ChangedTerms(text, diff.changes), PriorItems(diff, items)),
                     (a: Affected) => a.id == id)
  {
    StringLeTotal();
    assert StringLe(id, id);
    SortKeepsTies(IdLe, AffectedItems(text, ChangedTerms(text, diff.changes), PriorItems(diff, items)),
                  (a: Affected) => a.id == id);
  }

  /** Rendered objects and lists start with their bracket. */
  ghost predicate Brackets(text: Text) {
    forall j: Json :: j.Arr? || j.Obj? ==> text.dump(j) != "" && (text.dump(j)[0] == '{' || text.dump(j)[0] == '[')
  }

  predicate NamesTerm(text: Text, j: Json, t: string) { TermText(j) && text.fold(j.s) == t }

  /** At `keys`, reached on both sides, the values differ and one of them is the term as a whole. */
  predicate TermChangedAt(text: Text, a: Json, b: Json, keys: seq<string>, t: string) {
    && Reached(a, b, keys) && Differ(Lookup(a, keys), Lookup(b, keys))
    && (NamesTerm(text, Lookup(a, keys), t) || NamesTerm(text, Lookup(b, keys), t))
  }

  lemma InChangedTerms(text: Text, changes: seq<Change>, t: string)
    ensures t in ChangedTerms(text, changes) <==>
              exists c :: c in changes && (NamesTerm(text, c.before, t) || NamesTerm(text, c.after, t))
  {
  }

  /** From the snapshots to the terms: a term counts as changed exactly when some place reached on both sides
      differs and holds that term as its whole text on one of them. Terms inside lists are never found. */
  lemma ChangedTermsAreExact(text: Text, a: Json, b: Json, t: string)
    requires Brackets(text)
    ensures t in ChangedTerms(text, Diff(text, a, b, [])) <==> exists keys :: TermChangedAt(text, a, b, keys, t)
  {
    var changes := Diff(text, a, b, []);
    InChangedTerms(text, changes, t);
    if t in ChangedTerms(text, changes) {
      var c :| c in changes && (NamesTerm(text, c.before, t) || NamesTerm(text, c.after, t));
      DiffIsExact(text, a, b, c);
      assert TermChangedAt(text, a, b, c.keys, t);
    }
    if keys :| TermChangedAt(text, a, b, keys, t) {
      var c := Change(keys, Show(text, Lookup(a, keys)), Show(text, Lookup(b, keys)));
      assert [] + keys == keys;
      DiffIsExact(text, a, b, c);
      assert c in changes && (NamesTerm(text, c.before, t) || NamesTerm(text, c.after, t));
    }
  }

  /** A term that changes inside a list: the list is reported as changed, the term is not. */
  lemma ListTermGoesUnseen(text: Text, k: string, term: string)
    requires Brackets(text)
    ensures var a, b := Obj(map[k := Arr([Str(term)])]), Obj(map[k := Arr([])]);
            Diff(text, a, b, []) != [] && ChangedTerms(text, Diff(text, a, b, [])) == {}
  {
    var xs, ys := Arr([Str(term)]), Arr([]);
    var a, b := Obj(map[k := xs]), Obj(map[k := ys]);
    assert Differ(xs, ys) && [k] + [] == [k];
    BelowKey(a, b, k, []);
    ReportedAt(text, a, b, [k]);
    forall t, keys
      ensures !TermChangedAt(text, a, b, keys, t)
    {
      if Reached(a, b, keys) && Differ(Lookup(a, keys), Lookup(b, keys)) {
        OnlyPlaces(a, b, k, keys);
      }
    }
    forall t
      ensures t !in ChangedTerms(text, Diff(text, a, b, []))
    {
      ChangedTermsAreExact(text, a, b, t);
    }
  }

  /** Where objects with one key can differ, if its values are no objects. */
  lemma OnlyPlaces(a: Json, b: Json, k: string, keys: seq<string>)
    requires a.Obj? && b.Obj? && a.fields.Keys == b.fields.Keys == {k} && !a.fields[k].Obj?
    requires Reached(a, b, keys) && Differ(Lookup(a, keys), Lookup(b, keys))
    ensures Lookup(a, keys) == a.fields[k] && Lookup(b, keys) == b.fields[k]
  {
    assert keys[0] == k && keys[1..] == [];
  }
}
