/**
 * The sorts the generator relies on. `List.sort` (a stable merge sort) and `Arrays.sort` on
 * strings are library routines; both are modelled by one stable insertion sort keyed by a string,
 * ordered by Java's `String.compareTo`.
 */
module Sorting {
  import opened Strings

  predicate SortedBy<T>(s: seq<T>, key: T -> string) {
    forall i, j :: 0 <= i < j < |s| ==> Leq(key(s[i]), key(s[j]))
  }

  /** Number of elements of `s` whose key is `k`. */
  function KeyCount<T>(s: seq<T>, key: T -> string, k: string): nat {
    if s == [] then 0 else (if key(s[0]) == k then 1 else 0) + KeyCount(s[1..], key, k)
  }

  /**
   * Inserts `x` in front of the first element whose key is not smaller, so `x` precedes every
   * element with an equal key.
   */
  function Insert<T>(x: T, s: seq<T>, key: T -> string): (r: seq<T>)
    ensures |r| == |s| + 1
    ensures multiset(r) == multiset(s) + multiset{x}
  {
    if s == [] || Leq(key(x), key(s[0])) then [x] + s
    else
      assert s == [s[0]] + s[1..];
      [s[0]] + Insert(x, s[1..], key)
  }

  /** Stable sort: equal keys keep their input order, as `List.sort` guarantees. */
  function SortBy<T>(s: seq<T>, key: T -> string): (r: seq<T>)
    ensures |r| == |s|
    ensures multiset(r) == multiset(s)
  {
    if s == [] then []
    else
      assert s == [s[0]] + s[1..];
      Insert(s[0], SortBy(s[1..], key), key)
  }

  lemma {:induction false} InsertSorted<T>(x: T, s: seq<T>, key: T -> string)
    requires SortedBy(s, key)
    ensures SortedBy(Insert(x, s, key), key)
    decreases |s|
  {
    if s == [] || Leq(key(x), key(s[0])) {
      var r := [x] + s;
      forall i, j | 0 <= i < j < |r| ensures Leq(key(r[i]), key(r[j])) {
        if i == 0 && j > 1 {
          LeqTransitive(key(x), key(s[0]), key(s[j - 1]));
        }
      }
    } else {
      LeqTotal(key(x), key(s[0]));
      InsertSorted(x, s[1..], key);
      var t := Insert(x, s[1..], key);
      var r := [s[0]] + t;
      forall j | 0 <= j < |t| ensures Leq(key(s[0]), key(t[j])) {
        assert t[j] in multiset(t);
        assert t[j] == x || t[j] in multiset(s[1..]);
        if t[j] != x {
          var m :| 0 <= m < |s[1..]| && s[1..][m] == t[j];
          assert s[m + 1] == t[j];
        }
      }
      forall i, j | 0 <= i < j < |r| ensures Leq(key(r[i]), key(r[j])) {
        if i > 0 {
          assert r[i] == t[i - 1] && r[j] == t[j - 1];
        }
      }
    }
  }

  lemma {:induction false} SortBySorted<T>(s: seq<T>, key: T -> string)
    ensures SortedBy(SortBy(s, key), key)
    decreases |s|
  {
    if s != [] {
      SortBySorted(s[1..], key);
      InsertSorted(s[0], SortBy(s[1..], key), key);
    }
  }

  lemma {:induction false} KeyCountAppend<T>(a: seq<T>, b: seq<T>, key: T -> string, k: string)
    ensures KeyCount(a + b, key, k) == KeyCount(a, key, k) + KeyCount(b, key, k)
    decreases |a|
  {
    if a == [] {
      assert a + b == b;
    } else {
      assert (a + b)[1..] == a[1..] + b;
      KeyCountAppend(a[1..], b, key, k);
    }
  }

  lemma {:induction false} InsertKeyCount<T>(x: T, s: seq<T>, key: T -> string, k: string)
    ensures KeyCount(Insert(x, s, key), key, k) == KeyCount(s, key, k) + (if key(x) == k then 1 else 0)
    decreases |s|
  {
    if s == [] || Leq(key(x), key(s[0])) {
      assert ([x] + s)[1..] == s;
    } else {
      InsertKeyCount(x, s[1..], key, k);
      assert ([s[0]] + Insert(x, s[1..], key))[1..] == Insert(x, s[1..], key);
    }
  }

  /** Sorting keeps how often each key occurs. */
  lemma {:induction false} SortByKeyCount<T>(s: seq<T>, key: T -> string, k: string)
    ensures KeyCount(SortBy(s, key), key, k) == KeyCount(s, key, k)
    decreases |s|
  {
    if s != [] {
      SortByKeyCount(s[1..], key, k);
      InsertKeyCount(s[0], SortBy(s[1..], key), key, k);
    }
  }

  /** The elements of `s` whose key is `k`, in the order `s` has them. */
  function WithKey<T>(s: seq<T>, key: T -> string, k: string): seq<T> {
    if s == [] then [] else (if key(s[0]) == k then [s[0]] else []) + WithKey(s[1..], key, k)
  }

  /**
   * `Insert` puts `x` ahead of every element with an equal key: the elements it steps over have
   * a key greater than `x`'s.
   */
  lemma {:induction false} InsertWithKey<T>(x: T, s: seq<T>, key: T -> string, k: string)
    ensures WithKey(Insert(x, s, key), key, k) == (if key(x) == k then [x] else []) + WithKey(s, key, k)
    decreases |s|
  {
    if s == [] || Leq(key(x), key(s[0])) {
      assert ([x] + s)[1..] == s;
    } else {
      LeqReflexive(key(x));
      InsertWithKey(x, s[1..], key, k);
      assert ([s[0]] + Insert(x, s[1..], key))[1..] == Insert(x, s[1..], key);
    }
  }

  /**
   * The sort is stable: for every key, the elements carrying it come out in the order they went
   * in.
   */
  lemma {:induction false} SortByStable<T>(s: seq<T>, key: T -> string, k: string)
    ensures WithKey(SortBy(s, key), key, k) == WithKey(s, key, k)
    decreases |s|
  {
    if s != [] {
      SortByStable(s[1..], key, k);
      InsertWithKey(s[0], SortBy(s[1..], key), key, k);
    }
  }

  lemma {:induction false} KeyCountPositive<T>(s: seq<T>, key: T -> string, j: int)
    requires 0 <= j < |s|
    ensures KeyCount(s, key, key(s[j])) >= 1
    decreases |s|
  {
    if j > 0 {
      KeyCountPositive(s[1..], key, j - 1);
    }
  }

  lemma {:induction false} KeyCountZero<T>(s: seq<T>, key: T -> string, k: string)
    requires forall m :: 0 <= m < |s| ==> key(s[m]) != k
    ensures KeyCount(s, key, k) == 0
    decreases |s|
  {
    if s != [] {
      KeyCountZero(s[1..], key, k);
    }
  }

  /** Removing the element at `j` removes one occurrence of its key. */
  lemma KeyCountWithout<T>(s: seq<T>, key: T -> string, j: int)
    requires 0 <= j < |s|
    ensures KeyCount(s, key, key(s[j])) == KeyCount(s[..j] + s[j + 1..], key, key(s[j])) + 1
  {
    var k, a, b := key(s[j]), s[..j], s[j + 1..];
    assert s == (a + [s[j]]) + b;
    assert KeyCount([s[j]], key, k) == 1;
    calc {
      KeyCount(s, key, k);
      { KeyCountAppend(a + [s[j]], b, key, k); }
      KeyCount(a + [s[j]], key, k) + KeyCount(b, key, k);
      { KeyCountAppend(a, [s[j]], key, k); }
      KeyCount(a, key, k) + 1 + KeyCount(b, key, k);
      { KeyCountAppend(a, b, key, k); }
      KeyCount(a + b, key, k) + 1;
    }
  }

  /** A key occurs at least twice exactly when a second index carries it. */
  lemma KeyCountAtLeastTwo<T>(s: seq<T>, key: T -> string, j: int)
    requires 0 <= j < |s|
    ensures KeyCount(s, key, key(s[j])) >= 2 <==>
            exists m :: 0 <= m < |s| && m != j && key(s[m]) == key(s[j])
  {
    var k := key(s[j]);
    var rest := s[..j] + s[j + 1..];
    KeyCountWithout(s, key, j);
    if exists m :: 0 <= m < |s| && m != j && key(s[m]) == k {
      var m :| 0 <= m < |s| && m != j && key(s[m]) == k;
      var m' := if m < j then m else m - 1;
      assert rest[m'] == s[m];
      KeyCountPositive(rest, key, m');
    } else {
      forall m | 0 <= m < |rest| ensures key(rest[m]) != k {
        if m < j { assert rest[m] == s[m]; } else { assert rest[m] == s[m + 1]; }
      }
      KeyCountZero(rest, key, k);
    }
  }
}
