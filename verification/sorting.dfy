/**
 * `Array.prototype.sort` as the dashboard uses it: a stable sort (the language has required
 * stability since ES2019) by an integer key (comparators `a.k - b.k`, or `b.k - a.k` through a
 * negated key) or by a string key (the default order, or `localeCompare` approximated by it).
 * Both are insertion sorts that put an element before the first one whose key is not smaller,
 * so elements with equal keys keep their input order.
 */
module Sorting {
  import opened Text

  // ---------------------------------------------------------------------------------------
  // Integer keys

  predicate SortedBy<T>(s: seq<T>, key: T -> int) {
    forall i, j :: 0 <= i < j < |s| ==> key(s[i]) <= key(s[j])
  }

  /** Where `x` goes: after every element with a smaller key. */
  function InsertPos<T>(x: T, s: seq<T>, key: T -> int): (k: nat)
    ensures k <= |s|
    ensures forall i :: 0 <= i < k ==> key(s[i]) < key(x)
    ensures k < |s| ==> key(x) <= key(s[k])
  {
    if s == [] || key(x) <= key(s[0]) then 0 else 1 + InsertPos(x, s[1..], key)
  }

  function InsertBy<T>(x: T, s: seq<T>, key: T -> int): (r: seq<T>)
    ensures |r| == |s| + 1
    ensures multiset(r) == multiset(s) + multiset{x}
  {
    var k := InsertPos(x, s, key);
    assert s == s[..k] + s[k..];
    s[..k] + [x] + s[k..]
  }

  /** The elements of `s` in ascending key order, equal keys in input order. */
  function SortBy<T>(s: seq<T>, key: T -> int): (r: seq<T>)
    ensures |r| == |s|
    ensures multiset(r) == multiset(s)
  {
    if s == [] then [] else
      assert s == [s[0]] + s[1..];
      InsertBy(s[0], SortBy(s[1..], key), key)
  }

  lemma {:induction false} InsertBySorted<T>(x: T, s: seq<T>, key: T -> int)
    requires SortedBy(s, key)
    ensures SortedBy(InsertBy(x, s, key), key)
  {
    var k := InsertPos(x, s, key);
    var r := InsertBy(x, s, key);
    forall i, j | 0 <= i < j < |r| ensures key(r[i]) <= key(r[j]) {
      if j > k && i <= k {
        assert key(x) <= key(s[k]) <= key(s[j - 1]);
      }
    }
  }

  /** The result of `SortBy` is in ascending key order. */
  lemma {:induction false} SortBySorted<T>(s: seq<T>, key: T -> int)
    ensures SortedBy(SortBy(s, key), key)
  {
    if s != [] {
      SortBySorted(s[1..], key);
      InsertBySorted(s[0], SortBy(s[1..], key), key);
    }
  }

  /** A sequence that is already in ascending key order is left as it is. */
  lemma {:induction false} SortByOfSorted<T>(s: seq<T>, key: T -> int)
    requires SortedBy(s, key)
    ensures SortBy(s, key) == s
  {
    if s != [] {
      SortByOfSorted(s[1..], key);
      assert InsertPos(s[0], s[1..], key) == 0;
    }
  }

  // ---------------------------------------------------------------------------------------
  // String keys

  predicate SortedByText<T>(s: seq<T>, key: T -> string) {
    forall i, j :: 0 <= i < j < |s| ==> StrLe(key(s[i]), key(s[j]))
  }

  function InsertPosText<T>(x: T, s: seq<T>, key: T -> string): (k: nat)
    ensures k <= |s|
    ensures forall i :: 0 <= i < k ==> !StrLe(key(x), key(s[i]))
    ensures k < |s| ==> StrLe(key(x), key(s[k]))
  {
    if s == [] || StrLe(key(x), key(s[0])) then 0 else 1 + InsertPosText(x, s[1..], key)
  }

  function InsertByText<T>(x: T, s: seq<T>, key: T -> string): (r: seq<T>)
    ensures |r| == |s| + 1
    ensures multiset(r) == multiset(s) + multiset{x}
  {
    var k := InsertPosText(x, s, key);
    assert s == s[..k] + s[k..];
    s[..k] + [x] + s[k..]
  }

  /** The elements of `s` in ascending order of their string keys, equal keys in input order. */
  function SortByText<T>(s: seq<T>, key: T -> string): (r: seq<T>)
    ensures |r| == |s|
    ensures multiset(r) == multiset(s)
  {
    if s == [] then [] else
      assert s == [s[0]] + s[1..];
      InsertByText(s[0], SortByText(s[1..], key), key)
  }

  lemma {:induction false} InsertByTextSorted<T>(x: T, s: seq<T>, key: T -> string)
    requires SortedByText(s, key)
    ensures SortedByText(InsertByText(x, s, key), key)
  {
    var k := InsertPosText(x, s, key);
    var r := InsertByText(x, s, key);
    forall i, j | 0 <= i < j < |r| ensures StrLe(key(r[i]), key(r[j])) {
      if i < k && j == k {
        StrLeTotal(key(x), key(s[i]));
      } else if i < k && j > k {
        StrLeTotal(key(x), key(s[i]));
        if j - 1 > k {
          StrLeTransitive(key(x), key(s[k]), key(s[j - 1]));
        }
        StrLeTransitive(key(s[i]), key(x), key(s[j - 1]));
      } else if i == k && j > k {
        if j - 1 > k {
          StrLeTransitive(key(x), key(s[k]), key(s[j - 1]));
        }
      }
    }
  }

  /** The result of `SortByText` is in ascending order of the keys. */
  lemma {:induction false} SortByTextSorted<T>(s: seq<T>, key: T -> string)
    ensures SortedByText(SortByText(s, key), key)
  {
    if s != [] {
      SortByTextSorted(s[1..], key);
      InsertByTextSorted(s[0], SortByText(s[1..], key), key);
    }
  }

  /** `strings.sort()`: the default string order. */
  function SortStrings(s: seq<string>): (r: seq<string>)
    ensures |r| == |s|
    ensures multiset(r) == multiset(s)
  {
    SortByText(s, x => x)
  }

  lemma {:induction false} SortStringsSorted(s: seq<string>)
    ensures forall i, j :: 0 <= i < j < |SortStrings(s)| ==> StrLe(SortStrings(s)[i], SortStrings(s)[j])
  {
    SortByTextSorted(s, x => x);
  }
}
