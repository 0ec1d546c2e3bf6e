/**
 * Python's ordering of strings and of lists of strings, its stable
 * `sorted(..., key=...)`, and `list.index`, as the LAMMPS writer uses them
 * to put type tables in a canonical order and to look rows up in them.
 */
module Ordering {
  import opened Wrappers

  /** Python's `a <= b` on strings: code point by code point, a proper prefix first. */
  predicate StrLe(a: string, b: string)
    decreases |a|
  {
    a == [] || (b != [] && (a[0] < b[0] || (a[0] == b[0] && StrLe(a[1..], b[1..]))))
  }

  lemma {:induction false} StrLeTotal(a: string, b: string)
    ensures StrLe(a, b) || StrLe(b, a)
    decreases |a|
  {
    if a != [] && b != [] && a[0] == b[0] {
      StrLeTotal(a[1..], b[1..]);
    }
  }

  lemma {:induction false} StrLeAntisymmetric(a: string, b: string)
    requires StrLe(a, b) && StrLe(b, a)
    ensures a == b
    decreases |a|
  {
    if a != [] {
      StrLeAntisymmetric(a[1..], b[1..]);
      assert a == [a[0]] + a[1..] && b == [b[0]] + b[1..];
    }
  }

  lemma {:induction false} StrLeTransitive(a: string, b: string, c: string)
    requires StrLe(a, b) && StrLe(b, c)
    ensures StrLe(a, c)
    decreases |a|
  {
    if a != [] && a[0] == b[0] && b[0] == c[0] {
      StrLeTransitive(a[1..], b[1..], c[1..]);
    }
  }

  /**
   * Python's `a <= b` on lists (and tuples) of strings: the first
   * position where they differ decides, otherwise the shorter one is
   * first.
   */
  predicate KeyLe(a: seq<string>, b: seq<string>)
    decreases |a|
  {
    a == [] || (b != [] && ((a[0] != b[0] && StrLe(a[0], b[0])) || (a[0] == b[0] && KeyLe(a[1..], b[1..]))))
  }

  lemma {:induction false} KeyLeTotal(a: seq<string>, b: seq<string>)
    ensures KeyLe(a, b) || KeyLe(b, a)
    decreases |a|
  {
    if a != [] && b != [] {
      if a[0] == b[0] {
        KeyLeTotal(a[1..], b[1..]);
      } else {
        StrLeTotal(a[0], b[0]);
      }
    }
  }

  lemma {:induction false} KeyLeTransitive(a: seq<string>, b: seq<string>, c: seq<string>)
    requires KeyLe(a, b) && KeyLe(b, c)
    ensures KeyLe(a, c)
    decreases |a|
  {
    if a != [] {
      if a[0] == b[0] && b[0] == c[0] {
        KeyLeTransitive(a[1..], b[1..], c[1..]);
      } else if a[0] != b[0] && b[0] != c[0] {
        StrLeTransitive(a[0], b[0], c[0]);
        if a[0] == c[0] {
          StrLeAntisymmetric(a[0], b[0]);
        }
      }
    }
  }

  /**
   * Inserting `x` before the first element whose key is not smaller
   * keeps elements of equal keys in their original order.
   */
  function Insert<T>(x: T, s: seq<T>, key: T -> seq<string>): (r: seq<T>)
    ensures |r| == |s| + 1
    ensures multiset(r) == multiset(s) + multiset{x}
  {
    if s == [] then [x]
    else if KeyLe(key(x), key(s[0])) then [x] + s
    else
      assert s == [s[0]] + s[1..];
      [s[0]] + Insert(x, s[1..], key)
  }

  /**
   * Python's `sorted(s, key=key)`, by insertion: its order is proved in
   * `SortBySorted` and its stability in `SortByStable`.
   */
  function SortBy<T>(s: seq<T>, key: T -> seq<string>): (r: seq<T>)
    ensures |r| == |s|
    ensures multiset(r) == multiset(s)
  {
    if s == [] then []
    else
      assert s == [s[0]] + s[1..];
      Insert(s[0], SortBy(s[1..], key), key)
  }

  predicate SortedBy<T>(s: seq<T>, key: T -> seq<string>)
  {
    forall i, j :: 0 <= i < j < |s| ==> KeyLe(key(s[i]), key(s[j]))
  }

  lemma {:induction false} InsertSorted<T>(x: T, s: seq<T>, key: T -> seq<string>)
    requires SortedBy(s, key)
    ensures SortedBy(Insert(x, s, key), key)
  {
    if s != [] {
      if KeyLe(key(x), key(s[0])) {
        var r := [x] + s;
        forall i, j | 0 <= i < j < |r| ensures KeyLe(key(r[i]), key(r[j])) {
          if i == 0 && j > 1 {
            KeyLeTransitive(key(x), key(s[0]), key(s[j - 1]));
          }
        }
      } else {
        KeyLeTotal(key(x), key(s[0]));
        InsertSorted(x, s[1..], key);
        var t := Insert(x, s[1..], key);
        var r := [s[0]] + t;
        forall i, j | 0 <= i < j < |r| ensures KeyLe(key(r[i]), key(r[j])) {
          if i == 0 {
            assert r[j] in multiset(t);
            assert r[j] == x || r[j] in multiset(s[1..]);
            if r[j] != x {
              var k :| 0 <= k < |s[1..]| && s[1..][k] == r[j];
              assert s[k + 1] == r[j];
            }
          }
        }
      }
    }
  }

  /** The result of `sorted` is in key order and a permutation of the input. */
  lemma {:induction false} SortBySorted<T>(s: seq<T>, key: T -> seq<string>)
    ensures SortedBy(SortBy(s, key), key)
    ensures multiset(SortBy(s, key)) == multiset(s)
  {
    if s != [] {
      SortBySorted(s[1..], key);
      InsertSorted(s[0], SortBy(s[1..], key), key);
    }
  }

  /** The elements of `s` whose key is `v`, in the order of `s`. */
  function WithKey<T>(s: seq<T>, key: T -> seq<string>, v: seq<string>): seq<T>
  {
    if s == [] then []
    else (if key(s[0]) == v then [s[0]] else []) + WithKey(s[1..], key, v)
  }

  lemma {:induction false} KeyLeRefl(a: seq<string>)
    ensures KeyLe(a, a)
    decreases |a|
  {
    if a != [] {
      KeyLeRefl(a[1..]);
    }
  }

  /** `x` goes before every element with the same key: it lands first among its equals. */
  lemma {:induction false} InsertWithKey<T>(x: T, s: seq<T>, key: T -> seq<string>, v: seq<string>)
    ensures WithKey(Insert(x, s, key), key, v) == (if key(x) == v then [x] else []) + WithKey(s, key, v)
  {
    if s == [] {
      assert Insert(x, s, key) == [x] + [];
      WithKeyCons(x, [], key, v);
    } else if KeyLe(key(x), key(s[0])) {
      assert Insert(x, s, key) == [x] + s;
      WithKeyCons(x, s, key, v);
    } else {
      var rest := Insert(x, s[1..], key);
      assert Insert(x, s, key) == [s[0]] + rest;
      InsertWithKey(x, s[1..], key, v);
      WithKeyCons(s[0], rest, key, v);
      WithKeyCons(s[0], s[1..], key, v);
      assert s == [s[0]] + s[1..];
      KeyLeRefl(key(x));
      var a, b := if key(s[0]) == v then [s[0]] else [], if key(x) == v then [x] else [];
      assert a == [] || b == [];
      SwapAroundEmpty(a, b, WithKey(s[1..], key, v));
    }
  }

  lemma SwapAroundEmpty<T>(a: seq<T>, b: seq<T>, w: seq<T>)
    requires a == [] || b == []
    ensures a + (b + w) == b + (a + w)
  {
    if a == [] {
      assert a + (b + w) == b + w == b + (a + w);
    } else {
      assert a + (b + w) == a + w == b + (a + w);
    }
  }

  lemma WithKeyCons<T>(y: T, t: seq<T>, key: T -> seq<string>, v: seq<string>)
    ensures WithKey([y] + t, key, v) == (if key(y) == v then [y] else []) + WithKey(t, key, v)
  {
    var u := [y] + t;
    assert u[0] == y && u[1..] == t;
  }

  /**
   * `sorted` is stable: the elements sharing a key come out in the order
   * they went in.
   */
  lemma {:induction false} SortByStable<T>(s: seq<T>, key: T -> seq<string>, v: seq<string>)
    ensures WithKey(SortBy(s, key), key, v) == WithKey(s, key, v)
  {
    if s != [] {
      SortByStable(s[1..], key, v);
      InsertWithKey(s[0], SortBy(s[1..], key), key, v);
    }
  }

  function Map<T, U>(f: T -> U, s: seq<T>): (r: seq<U>)
    ensures |r| == |s| && forall i :: 0 <= i < |s| ==> r[i] == f(s[i])
  {
    if s == [] then [] else [f(s[0])] + Map(f, s[1..])
  }

  lemma {:induction false} InsertMap<T, U>(x: T, s: seq<T>, f: T -> U, k1: T -> seq<string>, k2: U -> seq<string>)
    requires forall t :: k2(f(t)) == k1(t)
    ensures Insert(f(x), Map(f, s), k2) == Map(f, Insert(x, s, k1))
  {
    if s != [] {
      assert Map(f, s)[0] == f(s[0]) && Map(f, s)[1..] == Map(f, s[1..]);
      InsertMap(x, s[1..], f, k1, k2);
    }
  }

  /**
   * Sorting the images of a list by a key that agrees with the key of
   * their preimages gives the images of the sorted list.
   */
  lemma {:induction false} SortByMap<T, U>(s: seq<T>, f: T -> U, k1: T -> seq<string>, k2: U -> seq<string>)
    requires forall t :: k2(f(t)) == k1(t)
    ensures SortBy(Map(f, s), k2) == Map(f, SortBy(s, k1))
  {
    if s != [] {
      assert Map(f, s)[0] == f(s[0]) && Map(f, s)[1..] == Map(f, s[1..]);
      SortByMap(s[1..], f, k1, k2);
      InsertMap(s[0], SortBy(s[1..], k1), f, k1, k2);
    }
  }

  /** Python's `s.index(x)`: the first position holding `x`; ValueError (None) when absent. */
  function IndexOf<T(==)>(s: seq<T>, x: T): (r: Option<nat>)
    ensures r.None? <==> x !in s
    ensures r.Some? ==> r.value < |s| && s[r.value] == x && forall j :: 0 <= j < r.value ==> s[j] != x
  {
    if s == [] then None
    else if s[0] == x then Some(0)
    else match IndexOf(s[1..], x)
      case None => None
      case Some(k) => Some(k + 1)
  }

  /** In a list without repetitions, the position of the element at `i` is `i`. */
  lemma IndexOfDistinct<T>(s: seq<T>, i: nat)
    requires i < |s|
    requires forall a, b :: 0 <= a < b < |s| ==> s[a] != s[b]
    ensures IndexOf(s, s[i]) == Some(i)
  {
  }

  /** The smaller and the larger of two strings, as Python's `min` and `max` of two. */
  function MinStr(a: string, b: string): (r: string)
    ensures r == a || r == b
    ensures StrLe(r, a) && StrLe(r, b)
  {
    StrLeTotal(a, b);
    StrLeRefl(a);
    StrLeRefl(b);
    if StrLe(b, a) && b != a then b else a
  }

  function MaxStr(a: string, b: string): (r: string)
    ensures r == a || r == b
    ensures StrLe(a, r) && StrLe(b, r)
  {
    StrLeTotal(a, b);
    StrLeRefl(a);
    StrLeRefl(b);
    if StrLe(a, b) then b else a
  }

  lemma {:induction false} StrLeRefl(a: string)
    ensures StrLe(a, a)
    decreases |a|
  {
    if a != [] {
      StrLeRefl(a[1..]);
    }
  }
}
