// Python's `sorted(..., key=..., reverse=True)`: a stable sort on a real key.
module Sorting {

  predicate Descending<T>(t: seq<T>, key: T -> real) {
    forall i, j :: 0 <= i < j < |t| ==> key(t[i]) >= key(t[j])
  }

  /** Places `x` in front of the first element whose key is not greater. */
  function Insert<T>(x: T, t: seq<T>, key: T -> real): (r: seq<T>)
    ensures |r| == |t| + 1
  {
    if t == [] || key(x) >= key(t[0]) then [x] + t
    else [t[0]] + Insert(x, t[1..], key)
  }

  /** Insertion adds exactly `x`. */
  lemma {:induction false} InsertElements<T>(x: T, t: seq<T>, key: T -> real)
    ensures multiset(Insert(x, t, key)) == multiset{x} + multiset(t)
  {
    if t != [] && key(x) < key(t[0]) {
      InsertElements(x, t[1..], key);
      assert t == [t[0]] + t[1..];
    }
  }

  /** Every key after insertion is bounded by the key of `x` or of the old head. */
  lemma {:induction false} InsertBound<T>(x: T, t: seq<T>, key: T -> real)
    requires Descending(t, key)
    ensures forall i :: 0 <= i < |Insert(x, t, key)| ==>
      key(Insert(x, t, key)[i]) <= key(x) || (|t| > 0 && key(Insert(x, t, key)[i]) <= key(t[0]))
  {
    if t != [] && key(x) < key(t[0]) {
      InsertBound(x, t[1..], key);
      assert |t| > 1 ==> t[1..][0] == t[1];
    }
  }

  /** Insertion into a descending sequence keeps it descending. */
  lemma {:induction false} InsertDescending<T>(x: T, t: seq<T>, key: T -> real)
    requires Descending(t, key)
    ensures Descending(Insert(x, t, key), key)
  {
    if t == [] || key(x) >= key(t[0]) {
      ConsDescending(x, t, key);
    } else {
      var rest := Insert(x, t[1..], key);
      InsertDescending(x, t[1..], key);
      InsertBound(x, t[1..], key);
      assert |t| > 1 ==> t[1..][0] == t[1];
      ConsDescending(t[0], rest, key);
    }
  }

  /** A head whose key bounds the keys of a descending tail keeps it descending. */
  lemma ConsDescending<T>(h: T, rest: seq<T>, key: T -> real)
    requires Descending(rest, key)
    requires forall i :: 0 <= i < |rest| ==> key(rest[i]) <= key(h)
    ensures Descending([h] + rest, key)
  {
    var r := [h] + rest;
    forall i, j | 0 <= i < j < |r| ensures key(r[i]) >= key(r[j]) {
      assert r[j] == rest[j - 1];
      if i > 0 {
        assert r[i] == rest[i - 1];
      }
    }
  }

  /** `sorted(s, key=key, reverse=True)`. Elements with equal keys keep their
    * original order, because each element is inserted in front of the
    * equal-keyed elements that followed it. */
  function SortDesc<T>(s: seq<T>, key: T -> real): (r: seq<T>)
    ensures |r| == |s|
    ensures multiset(r) == multiset(s)
    ensures Descending(r, key)
  {
    if s == [] then []
    else
      assert s == [s[0]] + s[1..];
      InsertElements(s[0], SortDesc(s[1..], key), key);
      InsertDescending(s[0], SortDesc(s[1..], key), key);
      Insert(s[0], SortDesc(s[1..], key), key)
  }

  /** Sorting keeps exactly the elements it was given. */
  lemma SortDescMembers<T>(s: seq<T>, key: T -> real)
    ensures forall x :: x in SortDesc(s, key) <==> x in s
  {
    var r := SortDesc(s, key);
    forall x ensures x in r <==> x in s {
      assert x in r <==> x in multiset(r);
      assert x in s <==> x in multiset(s);
    }
  }

  /** `sorted(s, key=key)`, ascending and stable. */
  function SortAsc<T>(s: seq<T>, key: T -> real): (r: seq<T>)
    ensures |r| == |s|
    ensures multiset(r) == multiset(s)
    ensures forall i, j :: 0 <= i < j < |r| ==> key(r[i]) <= key(r[j])
  {
    var neg := (x: T) => -key(x);
    var r := SortDesc(s, neg);
    assert forall i, j :: 0 <= i < j < |r| ==> neg(r[i]) >= neg(r[j]);
    r
  }

  /** The elements of `s` whose key is `v`, in their order in `s`. */
  function WithKey<T>(s: seq<T>, key: T -> real, v: real): (r: seq<T>)
    ensures |r| <= |s|
    ensures forall x :: x in r ==> x in s && key(x) == v
  {
    if s == [] then []
    else (if key(s[0]) == v then [s[0]] else []) + WithKey(s[1..], key, v)
  }

  lemma {:induction false} WithKeyAppend<T>(a: seq<T>, b: seq<T>, key: T -> real, v: real)
    ensures WithKey(a + b, key, v) == WithKey(a, key, v) + WithKey(b, key, v)
  {
    if a == [] {
      assert a + b == b;
    } else {
      assert (a + b)[0] == a[0] && (a + b)[1..] == a[1..] + b;
      WithKeyAppend(a[1..], b, key, v);
    }
  }

  /** Inserting `x` adds it to its key's run ahead of the equal-keyed
    * elements already there. */
  lemma {:induction false} InsertWithKey<T>(x: T, t: seq<T>, key: T -> real, v: real)
    requires Descending(t, key)
    ensures WithKey(Insert(x, t, key), key, v) == WithKey([x], key, v) + WithKey(t, key, v)
  {
    if t == [] || key(x) >= key(t[0]) {
      WithKeyAppend([x], t, key, v);
    } else {
      assert Descending(t[1..], key);
      InsertWithKey(x, t[1..], key, v);
      WithKeyAppend([t[0]], Insert(x, t[1..], key), key, v);
      WithKeyAppend([t[0]], t[1..], key, v);
      assert [t[0]] + t[1..] == t;
      assert [t[0]][1..] == [] && [x][1..] == [];
    }
  }

  /** Stability: the elements that share a key come out of the sort in the
    * order they went in. */
  lemma {:induction false} SortDescStable<T>(s: seq<T>, key: T -> real, v: real)
    ensures WithKey(SortDesc(s, key), key, v) == WithKey(s, key, v)
  {
    if s != [] {
      SortDescStable(s[1..], key, v);
      InsertWithKey(s[0], SortDesc(s[1..], key), key, v);
      WithKeyAppend([s[0]], s[1..], key, v);
      assert [s[0]] + s[1..] == s;
      assert [s[0]][1..] == [];
    }
  }

  lemma {:induction false} WithNegatedKey<T>(s: seq<T>, key: T -> real, neg: T -> real, v: real)
    requires forall x :: neg(x) == -key(x)
    ensures WithKey(s, neg, -v) == WithKey(s, key, v)
  {
    if s != [] {
      WithNegatedKey(s[1..], key, neg, v);
    }
  }

  /** The ascending sort is stable too. */
  lemma SortAscStable<T>(s: seq<T>, key: T -> real, v: real)
    ensures WithKey(SortAsc(s, key), key, v) == WithKey(s, key, v)
  {
    var neg := (x: T) => -key(x);
    SortDescStable(s, neg, -v);
    WithNegatedKey(s, key, neg, v);
    WithNegatedKey(SortDesc(s, neg), key, neg, v);
  }

  /** The head of an insertion: `x` when it goes in front, else the old head. */
  lemma InsertHead<T>(x: T, t: seq<T>, key: T -> real)
    requires Descending(t, key)
    ensures Insert(x, t, key)[0] == if t == [] || key(x) >= key(t[0]) then x else t[0]
  {
  }

  /** Of three elements, the stable descending sort puts first the earliest
    * one whose key is greatest. */
  lemma SortDescFirstOfThree<T>(a: T, b: T, c: T, key: T -> real)
    ensures SortDesc([a, b, c], key)[0] ==
      if key(a) >= key(b) && key(a) >= key(c) then a else if key(b) >= key(c) then b else c
  {
    var s := [a, b, c];
    assert s[1..] == [b, c] && s[1..][1..] == [c] && s[1..][1..][1..] == [];
    var t := SortDesc([c], key);
    assert t == Insert(c, [], key) == [c];
    var u := SortDesc([b, c], key);
    assert u == Insert(b, t, key);
    InsertHead(b, t, key);
    assert SortDesc(s, key) == Insert(a, u, key);
    InsertHead(a, u, key);
  }
}
