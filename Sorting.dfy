/**
 * Python's `list.sort(key=...)` and `sorted(..., key=...)`, which are stable:
 * the result is ordered by key and elements with equal keys keep their
 * input order. The model sorts by insertion, placing each element after
 * every earlier one whose key is not larger; any stable sort gives the same
 * list.
 */
module Sorting {
  import opened Seqs

  /** The order of the sort keys: the first component, then the second. */
  predicate KeyLe(a: (int, int), b: (int, int))
  {
    a.0 < b.0 || (a.0 == b.0 && a.1 <= b.1)
  }

  predicate SortedBy<T>(xs: seq<T>, key: T -> (int, int))
  {
    forall i, j :: 0 <= i < j < |xs| ==> KeyLe(key(xs[i]), key(xs[j]))
  }

  /** `x` placed before the first element whose key is larger than its own. */
  function Insert<T>(x: T, xs: seq<T>, key: T -> (int, int)): (r: seq<T>)
    ensures |r| == |xs| + 1
    ensures multiset(r) == multiset(xs) + multiset{x}
  {
    if xs == [] then [x]
    else if !KeyLe(key(xs[0]), key(x)) then [x] + xs
    else
      assert xs == [xs[0]] + xs[1..];
      [xs[0]] + Insert(x, xs[1..], key)
  }

  /** `sorted(xs, key=key)`. */
  function SortBy<T>(xs: seq<T>, key: T -> (int, int)): (r: seq<T>)
    ensures |r| == |xs|
    ensures multiset(r) == multiset(xs)
  {
    if xs == [] then []
    else
      assert xs == xs[..|xs| - 1] + [xs[|xs| - 1]];
      Insert(xs[|xs| - 1], SortBy(xs[..|xs| - 1], key), key)
  }

  lemma {:induction false} InsertSorted<T>(x: T, xs: seq<T>, key: T -> (int, int))
    requires SortedBy(xs, key)
    ensures SortedBy(Insert(x, xs, key), key)
  {
    if xs != [] && KeyLe(key(xs[0]), key(x)) {
      var rest := Insert(x, xs[1..], key);
      InsertSorted(x, xs[1..], key);
      var r := [xs[0]] + rest;
      forall i, j | 0 <= i < j < |r| ensures KeyLe(key(r[i]), key(r[j])) {
        if i == 0 {
          assert r[j] in multiset(rest);
          assert r[j] == x || r[j] in multiset(xs[1..]);
          if r[j] != x {
            var k :| 0 <= k < |xs[1..]| && xs[1..][k] == r[j];
            assert xs[k + 1] == r[j];
          }
        } else {
          assert r[i] == rest[i - 1] && r[j] == rest[j - 1];
        }
      }
    } else if xs != [] {
      var r := [x] + xs;
      forall i, j | 0 <= i < j < |r| ensures KeyLe(key(r[i]), key(r[j])) {
        if i == 0 {
          assert KeyLe(key(xs[0]), key(xs[j - 1]));
        } else {
          assert r[i] == xs[i - 1] && r[j] == xs[j - 1];
        }
      }
    }
  }

  /** The result is ordered by key. */
  lemma {:induction false} SortBySorted<T>(xs: seq<T>, key: T -> (int, int))
    ensures SortedBy(SortBy(xs, key), key)
  {
    if xs != [] {
      SortBySorted(xs[..|xs| - 1], key);
      InsertSorted(xs[|xs| - 1], SortBy(xs[..|xs| - 1], key), key);
    }
  }

  /** The elements of `xs` whose key is `k`, in order. */
  function WithKey<T>(xs: seq<T>, key: T -> (int, int), k: (int, int)): seq<T>
  {
    if xs == [] then []
    else (if key(xs[0]) == k then [xs[0]] else []) + WithKey(xs[1..], key, k)
  }

  lemma {:induction false} WithKeyAppend<T>(a: seq<T>, b: seq<T>, key: T -> (int, int), k: (int, int))
    ensures WithKey(a + b, key, k) == WithKey(a, key, k) + WithKey(b, key, k)
  {
    if a != [] {
      assert (a + b)[1..] == a[1..] + b;
      WithKeyAppend(a[1..], b, key, k);
    } else {
      assert a + b == b;
    }
  }

  /** No element of `xs` has the key `k`. */
  lemma {:induction false} WithKeyNone<T>(xs: seq<T>, key: T -> (int, int), k: (int, int))
    requires forall i :: 0 <= i < |xs| ==> key(xs[i]) != k
    ensures WithKey(xs, key, k) == []
  {
    if xs != [] {
      WithKeyNone(xs[1..], key, k);
    }
  }

  /** `x` goes after every element with its own key. */
  lemma {:induction false} InsertWithKey<T>(x: T, xs: seq<T>, key: T -> (int, int), k: (int, int))
    requires SortedBy(xs, key)
    ensures WithKey(Insert(x, xs, key), key, k) == WithKey(xs, key, k) + WithKey([x], key, k)
  {
    var own := WithKey([x], key, k);
    assert own == (if key(x) == k then [x] else []) + WithKey([x][1..], key, k);
    assert [x][1..] == [];
    AppendEmpty(if key(x) == k then [x] else []);
    if xs == [] {
      EmptyAppend(own);
    } else if !KeyLe(key(xs[0]), key(x)) {
      assert ([x] + xs)[1..] == xs;
      if key(x) == k {
        forall i | 0 <= i < |xs| ensures key(xs[i]) != k {
          if i > 0 {
            assert KeyLe(key(xs[0]), key(xs[i]));
          }
        }
        WithKeyNone(xs, key, k);
        AppendEmpty([x]);
        EmptyAppend([x]);
      } else {
        EmptyAppend(WithKey(xs, key, k));
        AppendEmpty(WithKey(xs, key, k));
      }
    } else {
      var rest := Insert(x, xs[1..], key);
      assert ([xs[0]] + rest)[1..] == rest;
      InsertWithKey(x, xs[1..], key, k);
      AppendAssoc(if key(xs[0]) == k then [xs[0]] else [], WithKey(xs[1..], key, k), own);
    }
  }

  /** Stability: for every key, the elements with that key come out in input order. */
  lemma {:induction false} SortByStable<T>(xs: seq<T>, key: T -> (int, int), k: (int, int))
    ensures WithKey(SortBy(xs, key), key, k) == WithKey(xs, key, k)
  {
    if xs != [] {
      var init, last := xs[..|xs| - 1], xs[|xs| - 1];
      SortByStable(init, key, k);
      SortBySorted(init, key);
      InsertWithKey(last, SortBy(init, key), key, k);
      assert xs == init + [last];
      WithKeyAppend(init, [last], key, k);
    }
  }

  /** `x` has a key no smaller than every key of `xs`: it goes last. */
  lemma {:induction false} InsertLast<T>(x: T, xs: seq<T>, key: T -> (int, int))
    requires forall i :: 0 <= i < |xs| ==> KeyLe(key(xs[i]), key(x))
    ensures Insert(x, xs, key) == xs + [x]
  {
    if xs != [] {
      InsertLast(x, xs[1..], key);
      assert xs == [xs[0]] + xs[1..];
    }
  }

  /** Sorting a list that is already ordered by key leaves it as it is. */
  lemma {:induction false} SortBySortedInput<T>(xs: seq<T>, key: T -> (int, int))
    requires SortedBy(xs, key)
    ensures SortBy(xs, key) == xs
  {
    if xs != [] {
      var init, last := xs[..|xs| - 1], xs[|xs| - 1];
      assert SortedBy(init, key) by {
        forall i, j | 0 <= i < j < |init| ensures KeyLe(key(init[i]), key(init[j])) {
          assert init[i] == xs[i] && init[j] == xs[j];
        }
      }
      SortBySortedInput(init, key);
      forall i | 0 <= i < |init| ensures KeyLe(key(init[i]), key(last)) {
        assert init[i] == xs[i];
      }
      InsertLast(last, init, key);
      assert init + [last] == xs;
    }
  }
}
