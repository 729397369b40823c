/** `array.sort((a, b) => key(a) - key(b))` on a copy of an array: JavaScript's
    stable sort with a numeric comparator, as a function on sequences. */
module Sorting {

  ghost predicate SortedBy<T>(s: seq<T>, key: T -> real) {
    forall i, j :: 0 <= i < j < |s| ==> key(s[i]) <= key(s[j])
  }

  /** Places `x` after every element whose key is not larger than its own. */
  function Insert<T>(x: T, s: seq<T>, key: T -> real): (r: seq<T>)
    requires SortedBy(s, key)
    ensures |r| == |s| + 1
    ensures multiset(r) == multiset(s) + multiset{x}
    ensures SortedBy(r, key)
  {
    if |s| == 0 then [x]
    else if key(x) < key(s[0]) then
      ConsSorted(x, s, key);
      [x] + s
    else
      var rest := Insert(x, s[1..], key);
      assert s == [s[0]] + s[1..];
      HeadBelowTail(s, key);
      HeadBelowInsert(s[0], x, s[1..], rest, key);
      ConsSorted(s[0], rest, key);
      [s[0]] + rest
  }

  /** The head of a sorted sequence has a key no larger than any later element. */
  lemma HeadBelowTail<T>(s: seq<T>, key: T -> real)
    requires SortedBy(s, key) && |s| > 0
    ensures forall y :: y in s[1..] ==> key(s[0]) <= key(y)
  {
    forall y | y in s[1..] ensures key(s[0]) <= key(y) {
      var j :| 0 <= j < |s| - 1 && s[1..][j] == y;
      assert s[j + 1] == y;
    }
  }

  /** A lower bound on the keys of `t` and on `key(x)` bounds every key of a
      sequence holding the elements of `t` plus `x`. */
  lemma HeadBelowInsert<T>(h: T, x: T, t: seq<T>, rest: seq<T>, key: T -> real)
    requires multiset(rest) == multiset(t) + multiset{x}
    requires key(h) <= key(x)
    requires forall y :: y in t ==> key(h) <= key(y)
    ensures forall y :: y in rest ==> key(h) <= key(y)
  {
    forall y | y in rest ensures key(h) <= key(y) {
      assert y in multiset(rest);
      assert y == x || y in t;
    }
  }

  /** A sorted sequence stays sorted when an element with a key no larger than
      any of its keys is put in front. */
  lemma ConsSorted<T>(h: T, t: seq<T>, key: T -> real)
    requires SortedBy(t, key)
    requires forall y :: y in t ==> key(h) <= key(y)
    ensures SortedBy([h] + t, key)
  {
    var r := [h] + t;
    forall i, j | 0 <= i < j < |r| ensures key(r[i]) <= key(r[j]) {
      assert r[j] == t[j - 1];
      if i > 0 {
        assert r[i] == t[i - 1];
      } else {
        assert t[j - 1] in t;
      }
    }
  }

  /** The sorted copy: same elements, ascending keys (ties keep input order). */
  function SortBy<T>(s: seq<T>, key: T -> real): (r: seq<T>)
    ensures |r| == |s|
    ensures multiset(r) == multiset(s)
    ensures SortedBy(r, key)
  {
    if |s| == 0 then []
    else
      assert s == s[..|s| - 1] + [s[|s| - 1]];
      Insert(s[|s| - 1], SortBy(s[..|s| - 1], key), key)
  }

  /** The elements of `s` whose key is `v`, in their order in `s`. */
  function Ties<T>(s: seq<T>, key: T -> real, v: real): (r: seq<T>)
    ensures forall y :: y in r ==> y in s && key(y) == v
  {
    if |s| == 0 then []
    else (if key(s[0]) == v then [s[0]] else []) + Ties(s[1..], key, v)
  }

  lemma {:induction false} TiesAppend<T>(a: seq<T>, b: seq<T>, key: T -> real, v: real)
    ensures Ties(a + b, key, v) == Ties(a, key, v) + Ties(b, key, v)
  {
    if |a| > 0 {
      assert (a + b)[1..] == a[1..] + b;
      TiesAppend(a[1..], b, key, v);
    } else {
      assert a + b == b;
    }
  }

  /** A sequence with no key equal to `v` has no ties at `v`. */
  lemma {:induction false} NoTies<T>(s: seq<T>, key: T -> real, v: real)
    requires forall k :: 0 <= k < |s| ==> key(s[k]) != v
    ensures Ties(s, key, v) == []
  {
    if |s| > 0 {
      NoTies(s[1..], key, v);
    }
  }

  /** An element placed before a sorted sequence whose keys all exceed its
      own comes after no tie of its key. */
  lemma FrontTies<T>(x: T, s: seq<T>, key: T -> real, v: real)
    requires SortedBy(s, key) && |s| > 0 && key(x) < key(s[0])
    ensures Ties([x] + s, key, v) == Ties(s, key, v) + Ties([x], key, v)
  {
    TiesAppend([x], s, key, v);
    if key(x) == v {
      forall k | 0 <= k < |s| ensures key(s[k]) != v {
        if k > 0 {
          assert key(s[0]) <= key(s[k]);
        }
      }
      NoTies(s, key, v);
    }
  }

  /** When `x` goes behind the head of `s`, the ties of the result are the
      head's followed by those of the insertion into the tail. */
  lemma LaterTies<T>(x: T, s: seq<T>, rest: seq<T>, key: T -> real, v: real)
    requires |s| > 0
    requires Ties(rest, key, v) == Ties(s[1..], key, v) + Ties([x], key, v)
    ensures Ties([s[0]] + rest, key, v) == Ties(s, key, v) + Ties([x], key, v)
  {
    var head, tail := [s[0]], s[1..];
    TiesAppend(head, rest, key, v);
    assert s == head + tail;
    TiesAppend(head, tail, key, v);
    var th, tt, tx := Ties(head, key, v), Ties(tail, key, v), Ties([x], key, v);
    assert th + (tt + tx) == (th + tt) + tx;
  }

  /** Inserting `x` puts it after every element with the same key. */
  lemma {:induction false} InsertTies<T>(x: T, s: seq<T>, key: T -> real, v: real)
    requires SortedBy(s, key)
    ensures Ties(Insert(x, s, key), key, v) == Ties(s, key, v) + Ties([x], key, v)
  {
    if |s| == 0 {
    } else if key(x) < key(s[0]) {
      FrontTies(x, s, key, v);
    } else {
      assert SortedBy(s[1..], key);
      InsertTies(x, s[1..], key, v);
      LaterTies(x, s, Insert(x, s[1..], key), key, v);
    }
  }

  /** The sort is stable: for every key value, the elements carrying it come
      out in the order they went in. */
  lemma {:induction false} SortByStable<T>(s: seq<T>, key: T -> real, v: real)
    ensures Ties(SortBy(s, key), key, v) == Ties(s, key, v)
  {
    if |s| > 0 {
      var init, last := s[..|s| - 1], s[|s| - 1];
      SortByStable(init, key, v);
      InsertTies(last, SortBy(init, key), key, v);
      assert s == init + [last];
      TiesAppend(init, [last], key, v);
    }
  }

  /** In a sorted sequence every element of a prefix has a key no larger than
      every element after it. */
  lemma PrefixBelowSuffix<T>(s: seq<T>, key: T -> real, k: nat, x: T, y: T)
    requires SortedBy(s, key) && k <= |s|
    requires x in s[..k] && y in s[k..]
    ensures key(x) <= key(y)
  {
    var i :| 0 <= i < k && s[..k][i] == x;
    var j :| 0 <= j < |s| - k && s[k..][j] == y;
    assert s[i] == x && s[k + j] == y;
  }

  /** Taking the first `k` elements of a sorted sequence keeps `k` elements
      with the smallest keys: nothing left behind has a smaller key than
      anything taken. */
  lemma PrefixIsSmallest<T>(s: seq<T>, key: T -> real, k: nat)
    requires SortedBy(s, key) && k <= |s|
    ensures multiset(s[..k]) <= multiset(s)
    ensures forall x, y :: x in s[..k] && y in multiset(s) - multiset(s[..k]) ==> key(x) <= key(y)
  {
    assert s == s[..k] + s[k..];
    assert multiset(s) - multiset(s[..k]) == multiset(s[k..]);
    forall x, y | x in s[..k] && y in multiset(s) - multiset(s[..k])
      ensures key(x) <= key(y)
    {
      assert y in s[k..];
      PrefixBelowSuffix(s, key, k, x, y);
    }
  }
}
