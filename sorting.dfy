/**
 * Python's `sorted` with a key function returning an integer: a stable sort. It is
 * modelled as an insertion sort that places each element before the first
 * later element whose key is not smaller, which keeps equal keys in their
 * original order.
 */
module StableSort {

  ghost predicate Sorted<T>(s: seq<T>, key: T -> int) {
    forall i, j :: 0 <= i < j < |s| ==> key(s[i]) <= key(s[j])
  }

  /** The elements of `s` whose key is `k`, in their order in `s`. */
  function WithKey<T>(s: seq<T>, key: T -> int, k: int): seq<T> {
    if s == [] then []
    else (if key(s[0]) == k then [s[0]] else []) + WithKey(s[1..], key, k)
  }

  /** Putting an element no greater than the head in front keeps a list sorted. */
  lemma SortedCons<T>(h: T, s: seq<T>, key: T -> int)
    requires Sorted(s, key)
    requires s != [] ==> key(h) <= key(s[0])
    ensures Sorted([h] + s, key)
  {
  }

  /** Inserts `x` before the first element of `t` whose key is at least `x`'s. */
  function Insert<T>(x: T, t: seq<T>, key: T -> int): (r: seq<T>)
    ensures |r| == |t| + 1
    ensures r[0] == x || (t != [] && r[0] == t[0])
    ensures multiset(r) == multiset(t) + multiset{x}
    ensures Sorted(t, key) ==> Sorted(r, key)
  {
    if t == [] || key(x) <= key(t[0]) then
      var r := [x] + t;
      assert Sorted(t, key) ==> Sorted(r, key) by {
        if Sorted(t, key) { SortedCons(x, t, key); }
      }
      r
    else
      var rest := Insert(x, t[1..], key);
      assert t == [t[0]] + t[1..];
      assert Sorted(t, key) ==> Sorted([t[0]] + rest, key) by {
        if Sorted(t, key) {
          assert Sorted(t[1..], key);
          SortedCons(t[0], rest, key);
        }
      }
      [t[0]] + rest
  }

  /** `sorted(s, key=key)`: sorted by key, a permutation of `s`. */
  function SortBy<T>(s: seq<T>, key: T -> int): (r: seq<T>)
    ensures Sorted(r, key)
    ensures multiset(r) == multiset(s)
  {
    if s == [] then []
    else
      assert s == [s[0]] + s[1..];
      Insert(s[0], SortBy(s[1..], key), key)
  }

  /** The elements with key `k` of a list with `h` in front. */
  lemma WithKeyCons<T>(h: T, s: seq<T>, key: T -> int, k: int)
    ensures WithKey([h] + s, key, k) == (if key(h) == k then [h] else []) + WithKey(s, key, k)
  {
    assert ([h] + s)[1..] == s;
  }

  /**
   * Inserting `x` adds it in front of the elements with its key and moves
   * no other element past one with the same key.
   */
  lemma {:induction false} InsertKeepsKeyOrder<T>(x: T, t: seq<T>, key: T -> int, k: int)
    ensures WithKey(Insert(x, t, key), key, k) == (if key(x) == k then [x] else []) + WithKey(t, key, k)
  {
    var xs: seq<T> := if key(x) == k then [x] else [];
    if t == [] || key(x) <= key(t[0]) {
      assert Insert(x, t, key) == [x] + t;
      WithKeyCons(x, t, key, k);
    } else {
      var rest := Insert(x, t[1..], key);
      var heads: seq<T> := if key(t[0]) == k then [t[0]] else [];
      assert WithKey(Insert(x, t, key), key, k) == heads + WithKey(rest, key, k) by {
        assert Insert(x, t, key) == [t[0]] + rest;
        WithKeyCons(t[0], rest, key, k);
      }
      assert WithKey(rest, key, k) == xs + WithKey(t[1..], key, k) by {
        InsertKeepsKeyOrder(x, t[1..], key, k);
      }
      assert WithKey(t, key, k) == heads + WithKey(t[1..], key, k) by {
        assert t == [t[0]] + t[1..];
        WithKeyCons(t[0], t[1..], key, k);
      }
      assert xs == [] || heads == [];
    }
  }

  /** Stability: for every key, the elements with that key keep their relative order. */
  lemma {:induction false} SortIsStable<T>(s: seq<T>, key: T -> int, k: int)
    ensures WithKey(SortBy(s, key), key, k) == WithKey(s, key, k)
  {
    if s != [] {
      SortIsStable(s[1..], key, k);
      InsertKeepsKeyOrder(s[0], SortBy(s[1..], key), key, k);
    }
  }

  /** Sorting a list that is already sorted by the key leaves it unchanged. */
  lemma {:induction false} SortedIsFixed<T>(s: seq<T>, key: T -> int)
    requires Sorted(s, key)
    ensures SortBy(s, key) == s
  {
    if s != [] {
      SortedIsFixed(s[1..], key);
      assert s == [s[0]] + s[1..];
    }
  }
}
