/**
 * A stable sort in descending order of an integer key: what
 * `Array.prototype.sort` computes (stably, since ECMAScript 2019) with the
 * comparator `(a, b) => key(b) - key(a)`.
 */
module StableSort {

  /** Keys never increase from left to right. */
  ghost predicate SortedDesc<T>(s: seq<T>, key: T -> int) {
    forall i, j :: 0 <= i < j < |s| ==> key(s[i]) >= key(s[j])
  }

  /** The elements of `s` whose key is `k`, in their order in `s`. */
  function WithKey<T>(s: seq<T>, key: T -> int, k: int): seq<T> {
    if |s| == 0 then []
    else (if key(s[0]) == k then [s[0]] else []) + WithKey(s[1..], key, k)
  }

  /** `t` keeps, for every key, the elements of `s` with that key in the same relative order. */
  ghost predicate SameTies<T>(s: seq<T>, t: seq<T>, key: T -> int) {
    forall k :: WithKey(t, key, k) == WithKey(s, key, k)
  }

  /** Places `x` after every element of `s` whose key is larger and before the rest. */
  function Insert<T>(x: T, s: seq<T>, key: T -> int): seq<T> {
    if |s| == 0 || key(s[0]) <= key(x) then [x] + s
    else [s[0]] + Insert(x, s[1..], key)
  }

  /**
   * Insertion sort, descending by key; an earlier element goes before a
   * later one with an equal key. The result is ordered and is a
   * permutation of the input.
   */
  function Sort<T>(s: seq<T>, key: T -> int): (r: seq<T>)
    ensures SortedDesc(r, key)
    ensures multiset(r) == multiset(s)
    ensures |r| == |s|
  {
    if |s| == 0 then []
    else
      var rest := Sort(s[1..], key);
      InsertKeepsOrder(s[0], rest, key);
      InsertAddsOne(s[0], rest, key);
      assert s == [s[0]] + s[1..];
      assert |multiset(Insert(s[0], rest, key))| == |multiset(s)|;
      Insert(s[0], rest, key)
  }

  /** Inserting adds exactly one occurrence of `x`. */
  lemma {:induction false} InsertAddsOne<T>(x: T, s: seq<T>, key: T -> int)
    ensures multiset(Insert(x, s, key)) == multiset{x} + multiset(s)
  {
    if |s| > 0 && key(s[0]) > key(x) {
      InsertAddsOne(x, s[1..], key);
      assert s == [s[0]] + s[1..];
    }
  }

  /** Inserting into a sorted sequence keeps it sorted. */
  lemma {:induction false} InsertKeepsOrder<T>(x: T, s: seq<T>, key: T -> int)
    requires SortedDesc(s, key)
    ensures SortedDesc(Insert(x, s, key), key)
  {
    if |s| > 0 && key(s[0]) > key(x) {
      var rest := Insert(x, s[1..], key);
      InsertKeepsOrder(x, s[1..], key);
      InsertAddsOne(x, s[1..], key);
      forall j | 0 <= j < |rest|
        ensures key(rest[j]) <= key(s[0])
      {
        var y := rest[j];
        assert y in multiset(rest);
        if y != x {
          assert y in multiset(s[1..]);
          var i :| 0 <= i < |s[1..]| && s[1..][i] == y;
          assert s[i + 1] == y;
        }
      }
      assert Insert(x, s, key) == [s[0]] + rest;
    }
  }

  /** How `Insert` changes the elements of one key: `x` goes in front of the old ones. */
  lemma {:induction false} InsertWithKey<T>(x: T, s: seq<T>, key: T -> int, k: int)
    ensures WithKey(Insert(x, s, key), key, k)
         == (if key(x) == k then [x] else []) + WithKey(s, key, k)
  {
    if |s| == 0 || key(s[0]) <= key(x) {
      assert ([x] + s)[0] == x && ([x] + s)[1..] == s;
    } else {
      InsertWithKey(x, s[1..], key, k);
      var rest := Insert(x, s[1..], key);
      var head := if key(s[0]) == k then [s[0]] else [];
      assert ([s[0]] + rest)[0] == s[0] && ([s[0]] + rest)[1..] == rest;
      assert WithKey(Insert(x, s, key), key, k) == head + WithKey(rest, key, k);
      assert WithKey(s, key, k) == head + WithKey(s[1..], key, k);
    }
  }

  /** The sort is stable: elements with equal keys keep their input order. */
  lemma {:induction false} SortIsStable<T>(s: seq<T>, key: T -> int)
    ensures SameTies(s, Sort(s, key), key)
  {
    forall k {
      SortWithKey(s, key, k);
    }
  }

  lemma {:induction false} SortWithKey<T>(s: seq<T>, key: T -> int, k: int)
    ensures WithKey(Sort(s, key), key, k) == WithKey(s, key, k)
  {
    if |s| > 0 {
      SortWithKey(s[1..], key, k);
      InsertWithKey(s[0], Sort(s[1..], key), key, k);
    }
  }

  lemma {:induction false} WithKeyAbsent<T>(s: seq<T>, key: T -> int, k: int)
    requires forall i :: 0 <= i < |s| ==> key(s[i]) != k
    ensures WithKey(s, key, k) == []
  {
    if |s| > 0 {
      WithKeyAbsent(s[1..], key, k);
    }
  }

  lemma HeadKeyPresent<T>(s: seq<T>, key: T -> int)
    requires |s| > 0
    ensures WithKey(s, key, key(s[0])) != []
  {
  }

  /** Two orderings that are both sorted and agree on every key's elements are the same sequence. */
  lemma {:induction false} SortedTiesDetermine<T>(a: seq<T>, b: seq<T>, key: T -> int)
    requires SortedDesc(a, key) && SortedDesc(b, key)
    requires forall k :: WithKey(a, key, k) == WithKey(b, key, k)
    ensures a == b
    decreases |a| + |b|
  {
    if |a| == 0 || |b| == 0 {
      if |a| > 0 {
        HeadKeyPresent(a, key);
        assert false;
      } else if |b| > 0 {
        HeadKeyPresent(b, key);
        assert false;
      }
    } else {
      var m, n := key(a[0]), key(b[0]);
      if m < n {
        WithKeyAbsent(a, key, n);
      } else if n < m {
        WithKeyAbsent(b, key, m);
      } else {
        assert WithKey(a, key, m) == [a[0]] + WithKey(a[1..], key, m);
        assert WithKey(b, key, m) == [b[0]] + WithKey(b[1..], key, m);
        forall k
          ensures WithKey(a[1..], key, k) == WithKey(b[1..], key, k)
        {
          assert WithKey(a, key, k) == WithKey(b, key, k);
          if k == m {
            assert WithKey(a, key, k)[1..] == WithKey(a[1..], key, k);
            assert WithKey(b, key, k)[1..] == WithKey(b[1..], key, k);
          } else {
            assert WithKey(a, key, k) == WithKey(a[1..], key, k);
            assert WithKey(b, key, k) == WithKey(b[1..], key, k);
          }
        }
        assert a[0] == WithKey(a, key, m)[0] == WithKey(b, key, m)[0] == b[0];
        SortedTiesDetermine(a[1..], b[1..], key);
        assert a == [a[0]] + a[1..];
        assert b == [b[0]] + b[1..];
      }
    }
  }

  /** `Sort` is the only stable descending sort: any ordering of `s` that is sorted and keeps ties in order equals it. */
  lemma SortIsUnique<T>(s: seq<T>, t: seq<T>, key: T -> int)
    requires SortedDesc(t, key) && SameTies(s, t, key)
    ensures t == Sort(s, key)
  {
    SortIsStable(s, key);
    SortedTiesDetermine(t, Sort(s, key), key);
  }

  /** Splitting a sequence splits each key's elements the same way. */
  lemma {:induction false} WithKeyAppend<T>(a: seq<T>, b: seq<T>, key: T -> int, k: int)
    ensures WithKey(a + b, key, k) == WithKey(a, key, k) + WithKey(b, key, k)
  {
    if |a| > 0 {
      WithKeyAppend(a[1..], b, key, k);
      assert (a + b)[1..] == a[1..] + b;
    } else {
      assert a + b == b;
    }
  }

  /** A prefix keeps, for every key, a prefix of that key's elements. */
  lemma PrefixTies<T>(s: seq<T>, n: nat, key: T -> int, k: int)
    requires n <= |s|
    ensures WithKey(s[..n], key, k) <= WithKey(s, key, k)
  {
    WithKeyAppend(s[..n], s[n..], key, k);
    assert s[..n] + s[n..] == s;
  }
}
