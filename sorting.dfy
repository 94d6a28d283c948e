/**
  Python's `list.sort(key=...)` / `sorted(...)`: a stable sort. The model is an
  insertion sort over a real-valued key; `reverse=True` is a sort on the negated
  key, which keeps equal keys in their original order exactly as Python does.
  Also the lexicographic order Python uses on strings, and `sorted(set)`.
*/
module Sorting {
  import opened Strings

  ghost predicate SortedBy<T>(s: seq<T>, key: T -> real) {
    forall i, j :: 0 <= i < j < |s| ==> key(s[i]) <= key(s[j])
  }

  /** The elements of `s` whose key is `k`, in their order in `s`. */
  function WithKey<T>(s: seq<T>, key: T -> real, k: real): seq<T>
    decreases |s|
  {
    if s == [] then []
    else (if key(s[0]) == k then [s[0]] else []) + WithKey(s[1..], key, k)
  }

  /** Places `x` in front of the first element whose key is not smaller. */
  function Insert<T>(x: T, s: seq<T>, key: T -> real): (r: seq<T>)
    ensures |r| == |s| + 1
    ensures multiset(r) == multiset(s) + multiset{x}
    decreases |s|
  {
    if s == [] || key(x) <= key(s[0]) then [x] + s
    else
      assert multiset(s) == multiset{s[0]} + multiset(s[1..]) by { assert s == [s[0]] + s[1..]; }
      [s[0]] + Insert(x, s[1..], key)
  }

  /** Inserting into a sorted sequence keeps it sorted. */
  lemma {:induction false} InsertSorted<T>(x: T, s: seq<T>, key: T -> real)
    requires SortedBy(s, key)
    ensures SortedBy(Insert(x, s, key), key)
    decreases |s|
  {
    if s != [] && key(x) > key(s[0]) {
      var t := Insert(x, s[1..], key);
      InsertSorted(x, s[1..], key);
      forall j | 0 <= j < |t| ensures key(s[0]) <= key(t[j]) {
        assert t[j] in multiset(t);
        if t[j] != x {
          assert t[j] in multiset(s[1..]);
          var m :| 0 <= m < |s[1..]| && s[1..][m] == t[j];
          assert s[m + 1] == t[j];
        }
      }
      assert Insert(x, s, key) == [s[0]] + t;
    }
  }

  /** `sorted(s, key=key)` */
  function SortBy<T>(s: seq<T>, key: T -> real): (r: seq<T>)
    ensures |r| == |s|
    ensures multiset(r) == multiset(s)
    ensures SortedBy(r, key)
    decreases |s|
  {
    if s == [] then []
    else
      assert s == [s[0]] + s[1..];
      InsertSorted(s[0], SortBy(s[1..], key), key);
      Insert(s[0], SortBy(s[1..], key), key)
  }

  lemma {:induction false} WithKeyInsert<T>(x: T, s: seq<T>, key: T -> real, k: real)
    ensures WithKey(Insert(x, s, key), key, k)
         == (if key(x) == k then [x] else []) + WithKey(s, key, k)
    decreases |s|
  {
    var xs: seq<T> := if key(x) == k then [x] else [];
    if s == [] || key(x) <= key(s[0]) {
      var r := [x] + s;
      assert r[0] == x && r[1..] == s;
      assert WithKey(r, key, k) == xs + WithKey(s, key, k);
    } else {
      var hs: seq<T> := if key(s[0]) == k then [s[0]] else [];
      var t := Insert(x, s[1..], key);
      var r := [s[0]] + t;
      assert r[0] == s[0] && r[1..] == t;
      WithKeyInsert(x, s[1..], key, k);
      assert WithKey(r, key, k) == hs + (xs + WithKey(s[1..], key, k));
      assert WithKey(s, key, k) == hs + WithKey(s[1..], key, k);
      // the two keys differ, so at most one of them is `k`
      assert hs == [] || xs == [];
    }
  }

  /** The elements of one key in a prefix are a prefix of those in the whole. */
  lemma {:induction false} WithKeyPrefix<T>(s: seq<T>, t: seq<T>, key: T -> real, k: real)
    requires s <= t
    ensures WithKey(s, key, k) <= WithKey(t, key, k)
    decreases |s|
  {
    if s != [] {
      assert s[1..] <= t[1..];
      WithKeyPrefix(s[1..], t[1..], key, k);
    }
  }

  /** Stability: the elements that share a key keep their relative order. */
  lemma {:induction false} SortByStable<T>(s: seq<T>, key: T -> real, k: real)
    ensures WithKey(SortBy(s, key), key, k) == WithKey(s, key, k)
    decreases |s|
  {
    if s != [] {
      SortByStable(s[1..], key, k);
      WithKeyInsert(s[0], SortBy(s[1..], key), key, k);
    }
  }

  /** A prefix of a stable sort holds, of each key, the first elements of that key in their original order. */
  lemma TakeSortedStable<T>(s: seq<T>, key: T -> real, k: real, n: nat)
    ensures WithKey(Take(SortBy(s, key), n), key, k) <= WithKey(s, key, k)
  {
    var sorted := SortBy(s, key);
    WithKeyPrefix(Take(sorted, n), sorted, key, k);
    SortByStable(s, key, k);
  }

  /** A prefix of a sort is drawn from the input without repeating any element. */
  lemma TakeSortedSub<T>(s: seq<T>, key: T -> real, n: nat)
    ensures multiset(Take(SortBy(s, key), n)) <= multiset(s)
  {
    var sorted := SortBy(s, key);
    assert sorted == Take(sorted, n) + sorted[|Take(sorted, n)|..];
  }

  /** An element left out of the first `n` of a sort comes after `n` elements of no greater key. */
  lemma TakeSortedTop<T>(s: seq<T>, key: T -> real, n: nat, x: T)
    requires x in s && x !in Take(SortBy(s, key), n)
    ensures var r := Take(SortBy(s, key), n);
      |r| == n && forall i :: 0 <= i < |r| ==> key(r[i]) <= key(x)
  {
    var sorted := SortBy(s, key);
    var r := Take(sorted, n);
    assert x in multiset(sorted);
    var k :| 0 <= k < |sorted| && sorted[k] == x;
    forall m | 0 <= m < |r| ensures sorted[m] != x {
      assert r[m] in r;
    }
    forall i | 0 <= i < |r| ensures key(r[i]) <= key(x) {
      assert r[i] == sorted[i];
    }
  }

  // ---- strings ----

  /** Python's `a < b` on strings: lexicographic by code point, a proper prefix first. */
  predicate StrLess(a: string, b: string)
    decreases |a|
  {
    if a == [] then b != []
    else if b == [] then false
    else if a[0] != b[0] then a[0] < b[0]
    else StrLess(a[1..], b[1..])
  }

  lemma {:induction false} StrLessIrreflexive(a: string)
    ensures !StrLess(a, a)
    decreases |a|
  {
    if a != [] { StrLessIrreflexive(a[1..]); }
  }

  lemma {:induction false} StrLessTrans(a: string, b: string, c: string)
    requires StrLess(a, b) && StrLess(b, c)
    ensures StrLess(a, c)
    decreases |a|
  {
    if a != [] && b != [] && c != [] && a[0] == b[0] == c[0] {
      StrLessTrans(a[1..], b[1..], c[1..]);
    }
  }

  lemma {:induction false} StrLessTotal(a: string, b: string)
    requires a != b
    ensures StrLess(a, b) || StrLess(b, a)
    decreases |a|
  {
    if a != [] && b != [] && a[0] == b[0] {
      assert a == [a[0]] + a[1..] && b == [b[0]] + b[1..];
      StrLessTotal(a[1..], b[1..]);
    }
  }

  /** The elements of a sequence, as a set. */
  function Elems<T>(s: seq<T>): set<T> {
    set y | y in s
  }

  ghost predicate StrictlySorted(s: seq<string>) {
    forall i, j :: 0 <= i < j < |s| ==> StrLess(s[i], s[j])
  }

  function InsertStr(x: string, s: seq<string>): (r: seq<string>)
    requires StrictlySorted(s) && x !in s
    ensures StrictlySorted(r)
    ensures |r| == |s| + 1
    ensures Elems(r) == Elems(s) + {x}
    decreases |s|
  {
    if s == [] then [x]
    else if StrLess(x, s[0]) then
      assert forall j :: 0 <= j < |s| ==> StrLess(x, s[j]) by {
        forall j | 0 < j < |s| ensures StrLess(x, s[j]) { StrLessTrans(x, s[0], s[j]); }
      }
      [x] + s
    else
      StrLessTotal(x, s[0]);
      var t := InsertStr(x, s[1..]);
      assert forall j :: 0 <= j < |t| ==> StrLess(s[0], t[j]) by {
        forall j | 0 <= j < |t| ensures StrLess(s[0], t[j]) {
          assert t[j] in Elems(t);
        }
      }
      assert Elems(s) == {s[0]} + Elems(s[1..]) by { assert s == [s[0]] + s[1..]; }
      [s[0]] + t
  }

  /** `sorted(names)` for a set of strings: every element once, in ascending order. */
  method SortedSet(names: set<string>) returns (r: seq<string>)
    ensures StrictlySorted(r)
    ensures Elems(r) == names
    ensures |r| == |names|
  {
    r := [];
    var rest := names;
    while rest != {}
      invariant StrictlySorted(r)
      invariant Elems(r) + rest == names
      invariant Elems(r) !! rest
      invariant |r| + |rest| == |names|
      decreases rest
    {
      var x :| x in rest;
      assert x !in Elems(r);
      r := InsertStr(x, r);
      rest := rest - {x};
    }
  }

  /** `sorted(set(names))` as a value: the distinct names in ascending order. */
  function SortedUnique(names: seq<string>): (r: seq<string>)
    ensures StrictlySorted(r)
    ensures Elems(r) == Elems(names)
    decreases |names|
  {
    if names == [] then []
    else
      var rest := SortedUnique(names[..|names| - 1]);
      var x := names[|names| - 1];
      assert names == names[..|names| - 1] + [x];
      if x in rest then rest else InsertStr(x, rest)
  }

  /** A strictly ascending sequence is fixed by its elements. */
  lemma {:induction false} StrictlySortedUnique(a: seq<string>, b: seq<string>)
    requires StrictlySorted(a) && StrictlySorted(b) && Elems(a) == Elems(b)
    ensures a == b
    decreases |a|
  {
    if a != [] {
      assert a[0] in Elems(b);
      assert b[0] in Elems(a);
      StrLessIrreflexive(a[0]);
      if StrLess(a[0], b[0]) && StrLess(b[0], a[0]) {
        StrLessTrans(a[0], b[0], a[0]);
      }
      assert a[0] == b[0];
      HeadNotInTail(a);
      HeadNotInTail(b);
      assert a == [a[0]] + a[1..] && b == [b[0]] + b[1..];
      assert Elems(a[1..]) == Elems(a) - {a[0]};
      assert Elems(b[1..]) == Elems(b) - {b[0]};
      StrictlySortedUnique(a[1..], b[1..]);
    } else {
      ElemsEmpty(b);
    }
  }

  lemma ElemsEmpty<T>(s: seq<T>)
    ensures Elems(s) == {} <==> s == []
  {
    if s != [] {
      assert s[0] in Elems(s);
    }
  }

  lemma HeadNotInTail(a: seq<string>)
    requires StrictlySorted(a) && a != []
    ensures a[0] !in a[1..]
  {
    forall i | 0 < i < |a| ensures a[i] != a[0] {
      StrLessIrreflexive(a[0]);
    }
  }
}
