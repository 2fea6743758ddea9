/**
 * The collection queries the handlers ask of the document store, over a store
 * modelled as a sequence of records in insertion (natural) order: the first
 * match (`findOne`), selection (`find`), counting (`countDocuments`),
 * summing (`$sum`), and ordering newest first (`sort({ createdAt: -1 })`).
 */
module Collections {
  import opened Wrappers

  /** Index of the first element satisfying `p`, if any. */
  function FirstIndex<T>(s: seq<T>, p: T -> bool): (r: Option<nat>)
    ensures r.Some? ==> r.value < |s| && p(s[r.value])
    ensures r.Some? ==> forall j :: 0 <= j < r.value ==> !p(s[j])
    ensures r.None? <==> forall j :: 0 <= j < |s| ==> !p(s[j])
  {
    if s == [] then None
    else if p(s[0]) then Some(0)
    else
      var r := FirstIndex(s[1..], p);
      assert forall j :: 1 <= j < |s| ==> s[j] == s[1..][j - 1];
      if r.Some? then Some(r.value + 1) else None
  }

  /** The first element satisfying `p` (`findOne`). */
  function First<T>(s: seq<T>, p: T -> bool): (r: Option<T>)
    ensures r.Some? ==> r.value in s && p(r.value)
    ensures r.None? <==> forall j :: 0 <= j < |s| ==> !p(s[j])
  {
    var i := FirstIndex(s, p);
    if i.Some? then Some(s[i.value]) else None
  }

  /** The first element satisfying `p` is the one at `i` when none before it does. */
  lemma FirstAt<T>(s: seq<T>, p: T -> bool, i: nat)
    requires i < |s| && p(s[i])
    requires forall j :: 0 <= j < i ==> !p(s[j])
    ensures First(s, p) == Some(s[i])
  {
    var r := FirstIndex(s, p);
    assert r.Some?;
  }

  /** The elements satisfying `p`, in store order (`find`). */
  function Filter<T(!new)>(s: seq<T>, p: T -> bool): (r: seq<T>)
    ensures |r| <= |s|
    ensures forall x :: x in r <==> x in s && p(x)
  {
    if s == [] then []
    else if p(s[0]) then [s[0]] + Filter(s[1..], p)
    else Filter(s[1..], p)
  }

  /** `countDocuments(filter)` */
  function CountWhere<T>(s: seq<T>, p: T -> bool): (n: nat)
    ensures n <= |s|
  {
    if s == [] then 0 else (if p(s[0]) then 1 else 0) + CountWhere(s[1..], p)
  }

  lemma {:induction false} CountWhereAppend<T>(s: seq<T>, t: seq<T>, p: T -> bool)
    ensures CountWhere(s + t, p) == CountWhere(s, p) + CountWhere(t, p)
  {
    if s == [] {
      assert s + t == t;
    } else {
      assert (s + t)[1..] == s[1..] + t;
      CountWhereAppend(s[1..], t, p);
    }
  }

  /** Every element is counted either by a predicate or by its negation, never by both. */
  lemma {:induction false} CountSplits<T>(s: seq<T>, p: T -> bool, q: T -> bool)
    requires forall x :: q(x) == !p(x)
    ensures CountWhere(s, p) + CountWhere(s, q) == |s|
  {
    if s != [] {
      CountSplits(s[1..], p, q);
    }
  }

  lemma {:induction false} CountFilter<T(!new)>(s: seq<T>, p: T -> bool)
    ensures CountWhere(s, p) == |Filter(s, p)|
  {
    if s != [] {
      CountFilter(s[1..], p);
    }
  }

  /** `$sum` of a numeric field over a whole collection; 0 for an empty one. */
  function Sum<T>(s: seq<T>, f: T -> real): real {
    if s == [] then 0.0 else f(s[0]) + Sum(s[1..], f)
  }

  lemma {:induction false} SumAppend<T>(s: seq<T>, t: seq<T>, f: T -> real)
    ensures Sum(s + t, f) == Sum(s, f) + Sum(t, f)
  {
    if s == [] {
      assert s + t == t;
    } else {
      assert (s + t)[1..] == s[1..] + t;
      SumAppend(s[1..], t, f);
    }
  }

  /** A sum of values that are never negative is never negative. */
  lemma {:induction false} SumNonNegative<T>(s: seq<T>, f: T -> real)
    requires forall x :: x in s ==> f(x) >= 0.0
    ensures Sum(s, f) >= 0.0
  {
    if s != [] {
      SumNonNegative(s[1..], f);
    }
  }

  /** `$sum` of an integer field. */
  function IntSum<T>(s: seq<T>, f: T -> int): int {
    if s == [] then 0 else f(s[0]) + IntSum(s[1..], f)
  }

  lemma {:induction false} IntSumAppend<T>(s: seq<T>, t: seq<T>, f: T -> int)
    ensures IntSum(s + t, f) == IntSum(s, f) + IntSum(t, f)
  {
    if s == [] {
      assert s + t == t;
    } else {
      assert (s + t)[1..] == s[1..] + t;
      IntSumAppend(s[1..], t, f);
    }
  }

  /** Replacing one element changes the sum by the difference of the two values. */
  lemma {:induction false} IntSumReplace<T>(s: seq<T>, i: nat, x: T, f: T -> int)
    requires i < |s|
    ensures IntSum(s[i := x], f) == IntSum(s, f) - f(s[i]) + f(x)
  {
    if i == 0 {
      assert s[i := x][1..] == s[1..];
    } else {
      assert s[i := x][1..] == s[1..][i - 1 := x];
      IntSumReplace(s[1..], i - 1, x, f);
    }
  }

  /** Replacing one element by one the predicate judges alike keeps the count. */
  lemma {:induction false} CountWhereReplace<T>(s: seq<T>, i: nat, x: T, p: T -> bool)
    requires i < |s| && p(x) == p(s[i])
    ensures CountWhere(s[i := x], p) == CountWhere(s, p)
  {
    if i == 0 {
      assert s[i := x][1..] == s[1..];
    } else {
      assert s[i := x][1..] == s[1..][i - 1 := x];
      CountWhereReplace(s[1..], i - 1, x, p);
    }
  }

  /** `key` does not increase along `s`: newest first when `key` is a creation time. */
  predicate NewestFirst<T>(s: seq<T>, key: T -> int) {
    forall i, j :: 0 <= i < j < |s| ==> key(s[i]) >= key(s[j])
  }

  /** `x` placed before the first element whose key is not larger, keeping ties in order. */
  function Insert<T>(x: T, s: seq<T>, key: T -> int): (r: seq<T>)
    requires NewestFirst(s, key)
    ensures NewestFirst(r, key)
    ensures multiset(r) == multiset(s) + multiset{x}
  {
    if s == [] || key(s[0]) <= key(x) then
      assert forall i :: 0 < i < |s| ==> key(s[i]) <= key(s[0]);
      ConsNewestFirst(x, s, key);
      [x] + s
    else
      var t := Insert(x, s[1..], key);
      assert multiset(s) == multiset{s[0]} + multiset(s[1..]) by {
        assert s == [s[0]] + s[1..];
      }
      forall i | 0 <= i < |t| ensures key(t[i]) <= key(s[0]) {
        assert t[i] in multiset(t);
        assert t[i] == x || t[i] in multiset(s[1..]);
      }
      ConsNewestFirst(s[0], t, key);
      [s[0]] + t
  }

  /** An element no older than every element of a newest-first list can go in front of it. */
  lemma ConsNewestFirst<T>(a: T, t: seq<T>, key: T -> int)
    requires NewestFirst(t, key)
    requires forall i :: 0 <= i < |t| ==> key(t[i]) <= key(a)
    ensures NewestFirst([a] + t, key)
  {
    var r := [a] + t;
    forall i, j | 0 <= i < j < |r| ensures key(r[i]) >= key(r[j]) {
      assert r[j] == t[j - 1];
      if i > 0 {
        assert r[i] == t[i - 1];
      }
    }
  }

  /** `sort({ createdAt: -1 })`: the same records, newest first. Ties may come in any
      order in the store; this one keeps them in store order. */
  function SortNewestFirst<T>(s: seq<T>, key: T -> int): (r: seq<T>)
    ensures NewestFirst(r, key)
    ensures multiset(r) == multiset(s)
  {
    if s == [] then []
    else
      assert s == [s[0]] + s[1..];
      Insert(s[0], SortNewestFirst(s[1..], key), key)
  }

  /** Two sequences with the same elements counted with multiplicity have the same length and
      the same members. */
  lemma SameElements<T>(a: seq<T>, b: seq<T>)
    requires multiset(a) == multiset(b)
    ensures |a| == |b|
    ensures forall x :: x in a <==> x in b
  {
    assert |multiset(a)| == |multiset(b)|;
    forall x ensures x in a <==> x in b {
      assert x in a <==> x in multiset(a);
      assert x in b <==> x in multiset(b);
    }
  }

  /** `f` applied to every element, in order (a projection such as `select`). */
  function Map<T, U>(s: seq<T>, f: T -> U): (r: seq<U>)
    ensures |r| == |s|
    ensures forall i :: 0 <= i < |s| ==> r[i] == f(s[i])
  {
    seq(|s|, i requires 0 <= i < |s| => f(s[i]))
  }

  /** The images of an element, and only those, are in the mapped list. */
  lemma InMap<T, U>(s: seq<T>, f: T -> U, y: U)
    ensures y in Map(s, f) <==> exists x :: x in s && f(x) == y
  {
    var r := Map(s, f);
    if y in r {
      var i :| 0 <= i < |r| && r[i] == y;
      assert s[i] in s;
    }
    if exists x :: x in s && f(x) == y {
      var x :| x in s && f(x) == y;
      var i :| 0 <= i < |s| && s[i] == x;
      assert r[i] == y;
    }
  }

  /** The element at index `i` replaced, as when one stored record is updated. */
  function ReplaceAt<T>(s: seq<T>, i: nat, x: T): (r: seq<T>)
    requires i < |s|
    ensures |r| == |s| && r[i] == x
    ensures forall j :: 0 <= j < |s| && j != i ==> r[j] == s[j]
  {
    s[..i] + [x] + s[i + 1..]
  }

  /** The element at index `i` removed, as when one stored record is deleted. */
  function RemoveAt<T>(s: seq<T>, i: nat): (r: seq<T>)
    requires i < |s|
    ensures |r| == |s| - 1
    ensures forall j :: 0 <= j < i ==> r[j] == s[j]
    ensures forall j :: i <= j < |r| ==> r[j] == s[j + 1]
  {
    s[..i] + s[i + 1..]
  }
}
