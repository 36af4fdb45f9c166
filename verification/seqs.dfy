/** Array helpers the source relies on: `Array.prototype.indexOf` and removal of the
    first occurrence of a value (`goo.ArrayUtil.remove`, and `splice(indexOf(x), 1)`). */
module Seqs {

  /** The index of the first occurrence of `x` in `s`, or -1 when `x` does not occur. */
  function IndexOf<T(==)>(s: seq<T>, x: T): (i: int)
    ensures -1 <= i < |s|
    ensures i == -1 <==> x !in s
    ensures 0 <= i ==> s[i] == x && x !in s[..i]
  {
    if s == [] then -1
    else if s[0] == x then 0
    else
      var j := IndexOf(s[1..], x);
      if j < 0 then -1
      else
        assert s[..j + 1] == [s[0]] + s[1..][..j];
        j + 1
  }

  /** `s` without the first occurrence of `x`; `s` itself when `x` does not occur. */
  function RemoveFirst<T(==)>(s: seq<T>, x: T): (r: seq<T>)
    ensures x !in s ==> r == s
    ensures x in s ==> var i := IndexOf(s, x); r == s[..i] + s[i + 1..]
  {
    if s == [] then []
    else if s[0] == x then s[1..]
    else
      var r := [s[0]] + RemoveFirst(s[1..], x);
      RemoveFirstCons(s, x, r);
      r
  }

  lemma RemoveFirstCons<T>(s: seq<T>, x: T, r: seq<T>)
    requires s != [] && s[0] != x
    requires x !in s[1..] ==> r == [s[0]] + s[1..]
    requires x in s[1..] ==> var j := IndexOf(s[1..], x); r == [s[0]] + (s[1..][..j] + s[1..][j + 1..])
    ensures x !in s ==> r == s
    ensures x in s ==> var i := IndexOf(s, x); r == s[..i] + s[i + 1..]
  {
    var t := s[1..];
    if x in t {
      var j := IndexOf(t, x);
      assert IndexOf(s, x) == j + 1;
      ConsSlices(s, j);
      assert r == ([s[0]] + t[..j]) + t[j + 1..];
    } else {
      assert s == [s[0]] + t;
      assert x !in s;
    }
  }

  lemma ConsSlices<T>(s: seq<T>, j: nat)
    requires j < |s| - 1
    ensures s[..j + 1] == [s[0]] + s[1..][..j] && s[j + 2..] == s[1..][j + 1..]
  {
  }

  /** Removal takes away one copy of `x` and keeps every other element. */
  lemma RemoveFirstMultiset<T>(s: seq<T>, x: T)
    ensures multiset(RemoveFirst(s, x)) == multiset(s) - multiset{x}
  {
    if x in s {
      var i := IndexOf(s, x);
      var a, b := s[..i], s[i + 1..];
      assert s == a + [x] + b;
      assert RemoveFirst(s, x) == a + b;
      assert multiset(a + b) == multiset(a) + multiset(b);
      assert multiset(s) == multiset(a) + multiset{x} + multiset(b);
    } else {
      assert multiset(s)[x] == 0;
      assert RemoveFirst(s, x) == s;
    }
  }

  /** Removing a value that was just put at the front gives back what was behind it. */
  lemma RemoveFront<T>(x: T, s: seq<T>)
    ensures RemoveFirst([x] + s, x) == s
  {
  }

  /** Growing a list at the end does not move the first occurrence of a value that
      is already in it. */
  lemma IndexOfAppend<T>(s: seq<T>, x: T, y: T)
    requires x in s
    ensures IndexOf(s + [y], x) == IndexOf(s, x)
  {
    var i, j := IndexOf(s, x), IndexOf(s + [y], x);
    assert 0 <= i < |s| && 0 <= j;
    assert (s + [y])[i] == x;
    if j < i {
      assert false;
    } else if j > i {
      assert false;
    }
  }

  /** Removing from a list that grew at the end: an earlier occurrence is removed and
      the new element stays last; otherwise the new element itself is removed if it
      is `x`. */
  lemma RemoveFirstAppend<T>(s: seq<T>, x: T, y: T)
    ensures RemoveFirst(s + [y], x) == if x in s then RemoveFirst(s, x) + [y] else if y == x then s else s + [y]
  {
    if x in s {
      RemoveEarlier(s, x, y);
    } else if y == x {
      RemoveLast(s, x);
    } else {
      assert x !in s + [y];
    }
  }

  lemma RemoveEarlier<T>(s: seq<T>, x: T, y: T)
    requires x in s
    ensures RemoveFirst(s + [y], x) == RemoveFirst(s, x) + [y]
  {
    var u, i := s + [y], IndexOf(s, x);
    assert u[i] == x;
    IndexOfAppend(s, x, y);
    SliceAppend(s, y, i);
    assert RemoveFirst(u, x) == u[..i] + u[i + 1..];
    assert u[..i] + u[i + 1..] == (s[..i] + s[i + 1..]) + [y];
  }

  lemma RemoveLast<T>(s: seq<T>, x: T)
    requires x !in s
    ensures RemoveFirst(s + [x], x) == s
  {
    var u := s + [x];
    assert u[|s|] == x && u[..|s|] == s;
    assert IndexOf(u, x) == |s|;
    assert u[|s| + 1..] == [];
  }

  lemma SliceAppend<T>(s: seq<T>, y: T, i: nat)
    requires i < |s|
    ensures (s + [y])[..i] == s[..i] && (s + [y])[i + 1..] == s[i + 1..] + [y]
  {
  }
}
