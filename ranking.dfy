/** Python's `sorted(items, key=f)` (a stable sort) as an insertion sort on
    sequences, with `reverse=True` expressed as sorting by the negated key,
    and the "first k" slices callers take of the result. */
module Ranking {

  /** Keys never decrease along `s`. */
  predicate SortedBy<T>(s: seq<T>, key: T -> real) {
    forall i, j :: 0 <= i < j < |s| ==> key(s[i]) <= key(s[j])
  }

  /** Places `x` before the first element whose key is not smaller, so an
      element inserted later from the left stays ahead of equal keys. */
  function InsertBy<T>(x: T, s: seq<T>, key: T -> real): (r: seq<T>)
    ensures |r| == |s| + 1
  {
    if s == [] || key(x) <= key(s[0]) then [x] + s
    else [s[0]] + InsertBy(x, s[1..], key)
  }

  /** `sorted(s, key=key)`. */
  function SortBy<T>(s: seq<T>, key: T -> real): (r: seq<T>)
    ensures |r| == |s|
  {
    if s == [] then [] else InsertBy(s[0], SortBy(s[1..], key), key)
  }

  /** `sorted(s, key=key, reverse=True)`: stable, so it is the ascending
      sort by the negated key. */
  function SortDescBy<T>(s: seq<T>, key: T -> real): (r: seq<T>)
    ensures |r| == |s|
  {
    SortBy(s, x => -key(x))
  }

  /** Insertion adds exactly `x`. */
  lemma {:induction false} InsertByCount<T>(x: T, s: seq<T>, key: T -> real)
    ensures multiset(InsertBy(x, s, key)) == multiset(s) + multiset{x}
  {
    if s != [] && key(x) > key(s[0]) {
      InsertByCount(x, s[1..], key);
      assert s == [s[0]] + s[1..];
    }
  }

  /** A bound below the keys of `x` and of `s` is a bound below the keys
      after insertion. */
  lemma {:induction false} InsertByLowerBound<T>(x: T, s: seq<T>, key: T -> real, b: real)
    requires key(x) >= b
    requires forall i :: 0 <= i < |s| ==> key(s[i]) >= b
    ensures forall i :: 0 <= i < |InsertBy(x, s, key)| ==> key(InsertBy(x, s, key)[i]) >= b
  {
    if s != [] && key(x) > key(s[0]) {
      InsertByLowerBound(x, s[1..], key, b);
      assert InsertBy(x, s, key) == [s[0]] + InsertBy(x, s[1..], key);
    }
  }

  /** Insertion into a sorted sequence keeps it sorted. */
  lemma {:induction false} InsertBySorted<T>(x: T, s: seq<T>, key: T -> real)
    requires SortedBy(s, key)
    ensures SortedBy(InsertBy(x, s, key), key)
  {
    if s != [] && key(x) > key(s[0]) {
      var tail := s[1..];
      InsertBySorted(x, tail, key);
      assert forall i :: 0 <= i < |tail| ==> key(tail[i]) >= key(s[0]) by {
        forall i | 0 <= i < |tail| ensures key(tail[i]) >= key(s[0]) {
          assert tail[i] == s[i + 1];
        }
      }
      InsertByLowerBound(x, tail, key, key(s[0]));
      var r := InsertBy(x, tail, key);
      assert InsertBy(x, s, key) == [s[0]] + r;
      forall i, j | 0 <= i < j < |r| + 1
        ensures key(([s[0]] + r)[i]) <= key(([s[0]] + r)[j])
      {
        assert ([s[0]] + r)[j] == r[j - 1];
        if i > 0 {
          assert ([s[0]] + r)[i] == r[i - 1];
        }
      }
    }
  }

  lemma InsertByKeeps<T>(x: T, s: seq<T>, key: T -> real)
    requires SortedBy(s, key)
    ensures SortedBy(InsertBy(x, s, key), key)
    ensures multiset(InsertBy(x, s, key)) == multiset(s) + multiset{x}
  {
    InsertByCount(x, s, key);
    InsertBySorted(x, s, key);
  }

  /** The sort orders by key. */
  lemma {:induction false} SortByOrders<T>(s: seq<T>, key: T -> real)
    ensures SortedBy(SortBy(s, key), key)
  {
    if s != [] {
      SortByOrders(s[1..], key);
      InsertBySorted(s[0], SortBy(s[1..], key), key);
    }
  }

  /** The sort loses or invents nothing. */
  lemma {:induction false} SortByPermutes<T>(s: seq<T>, key: T -> real)
    ensures multiset(SortBy(s, key)) == multiset(s)
  {
    if s != [] {
      var t := SortBy(s[1..], key);
      SortByPermutes(s[1..], key);
      InsertByCount(s[0], t, key);
      assert SortBy(s, key) == InsertBy(s[0], t, key);
      assert multiset(s) == multiset(s[1..]) + multiset{s[0]} by {
        assert s == [s[0]] + s[1..];
      }
    }
  }

  /** The sort orders by key, loses or invents nothing, and keeps
      elements with equal keys in their original order. */
  lemma SortByCorrect<T>(s: seq<T>, key: T -> real)
    ensures SortedBy(SortBy(s, key), key)
    ensures multiset(SortBy(s, key)) == multiset(s)
    ensures forall v :: WithKey(SortBy(s, key), key, v) == WithKey(s, key, v)
  {
    SortByOrders(s, key);
    SortByPermutes(s, key);
    forall v
      ensures WithKey(SortBy(s, key), key, v) == WithKey(s, key, v)
    {
      SortByStable(s, key, v);
    }
  }

  /** Descending order: keys never increase, nothing is lost, and ties
      keep their original order. */
  lemma SortDescByCorrect<T>(s: seq<T>, key: T -> real)
    ensures forall i, j :: 0 <= i < j < |s| ==> key(SortDescBy(s, key)[i]) >= key(SortDescBy(s, key)[j])
    ensures multiset(SortDescBy(s, key)) == multiset(s)
    ensures forall v :: WithKey(SortDescBy(s, key), key, v) == WithKey(s, key, v)
  {
    SortByOrders(s, x => -key(x));
    SortByPermutes(s, x => -key(x));
    forall v
      ensures WithKey(SortDescBy(s, key), key, v) == WithKey(s, key, v)
    {
      SortDescByStable(s, key, v);
    }
  }

  /** The elements of `s` whose key is `v`, in their order in `s`. */
  function WithKey<T>(s: seq<T>, key: T -> real, v: real): (r: seq<T>)
    ensures |r| <= |s|
    ensures forall x :: x in r ==> x in s && key(x) == v
  {
    if s == [] then []
    else (if key(s[0]) == v then [s[0]] else []) + WithKey(s[1..], key, v)
  }

  /** Insertion puts `x` ahead of every element with the same key. */
  lemma {:induction false} InsertByWithKey<T>(x: T, s: seq<T>, key: T -> real, v: real)
    ensures WithKey(InsertBy(x, s, key), key, v) == (if key(x) == v then [x] else []) + WithKey(s, key, v)
  {
    var r := InsertBy(x, s, key);
    var mine := if key(x) == v then [x] else [];
    if s == [] || key(x) <= key(s[0]) {
      assert r == [x] + s;
      assert r[0] == x && r[1..] == s;
      assert WithKey(r, key, v) == mine + WithKey(s, key, v);
    } else {
      var head := if key(s[0]) == v then [s[0]] else [];
      var rest := InsertBy(x, s[1..], key);
      assert r == [s[0]] + rest;
      assert r[0] == s[0] && r[1..] == rest;
      InsertByWithKey(x, s[1..], key, v);
      var tail := WithKey(s[1..], key, v);
      assert WithKey(r, key, v) == head + (mine + tail);
      assert WithKey(s, key, v) == head + tail;
      if mine == [] {
        assert mine + tail == tail;
        assert mine + (head + tail) == head + tail;
      } else {
        assert head == [];
        assert head + (mine + tail) == mine + tail;
        assert head + tail == tail;
      }
    }
  }

  /** The sort is stable: elements with equal keys keep their order. */
  lemma {:induction false} SortByStable<T>(s: seq<T>, key: T -> real, v: real)
    ensures WithKey(SortBy(s, key), key, v) == WithKey(s, key, v)
  {
    if s != [] {
      SortByStable(s[1..], key, v);
      InsertByWithKey(s[0], SortBy(s[1..], key), key, v);
    }
  }

  /** Negating the key keeps the same groups of equal keys. */
  lemma {:induction false} WithNegatedKey<T>(s: seq<T>, key: T -> real, v: real)
    ensures WithKey(s, x => -key(x), -v) == WithKey(s, key, v)
  {
    if s != [] {
      WithNegatedKey(s[1..], key, v);
    }
  }

  /** The descending sort is stable too, as `sorted(…, reverse=True)` is. */
  lemma SortDescByStable<T>(s: seq<T>, key: T -> real, v: real)
    ensures WithKey(SortDescBy(s, key), key, v) == WithKey(s, key, v)
  {
    var neg := x => -key(x);
    SortByStable(s, neg, -v);
    WithNegatedKey(SortDescBy(s, key), key, v);
    WithNegatedKey(s, key, v);
  }

  /** The head of the descending order has the largest key of all. */
  lemma SortDescHeadIsMax<T>(s: seq<T>, key: T -> real)
    requires s != []
    ensures SortDescBy(s, key)[0] in s
    ensures forall x :: x in s ==> key(x) <= key(SortDescBy(s, key)[0])
  {
    var r := SortDescBy(s, key);
    SortDescByCorrect(s, key);
    assert r[0] in multiset(s);
    forall x | x in s
      ensures key(x) <= key(r[0])
    {
      assert x in multiset(r);
      var k :| 0 <= k < |r| && r[k] == x;
    }
  }

  /** The first `n` entries of `s` (`s[:n]`). */
  function Take<T>(s: seq<T>, n: nat): (r: seq<T>)
    ensures |r| == if n <= |s| then n else |s|
    ensures r <= s
  {
    if n <= |s| then s[..n] else s
  }

  /** The first `n` of the descending order: best first, drawn from `s`,
      and no entry left out has a larger key than any entry kept. */
  lemma TopOfSortDesc<T>(s: seq<T>, key: T -> real, n: nat)
    ensures var r := Take(SortDescBy(s, key), n);
      && (forall i, j :: 0 <= i < j < |r| ==> key(r[i]) >= key(r[j]))
      && multiset(r) <= multiset(s)
      && (forall x, i :: x in multiset(s) - multiset(r) && 0 <= i < |r| ==> key(x) <= key(r[i]))
  {
    var d := SortDescBy(s, key);
    SortDescByCorrect(s, key);
    var r := Take(d, n);
    var rest := d[|r|..];
    assert d == r + rest;
    assert multiset(d) == multiset(r) + multiset(rest);
    forall x, i | x in multiset(s) - multiset(r) && 0 <= i < |r|
      ensures key(x) <= key(r[i])
    {
      assert x in multiset(rest);
      var k :| 0 <= k < |rest| && rest[k] == x;
      assert d[|r| + k] == x;
    }
  }

  /** Sorting a sequence that is already in order changes nothing. */
  lemma {:induction false} SortBySorted<T>(s: seq<T>, key: T -> real)
    requires SortedBy(s, key)
    ensures SortBy(s, key) == s
  {
    if s != [] {
      SortBySorted(s[1..], key);
      assert s == [s[0]] + s[1..];
    }
  }
}
