/**
 * `Array.prototype.filter` and the insertion-ordered contents of a JavaScript `Set`.
 */
module Collections {

  /** `s.filter(p)`: the elements satisfying `p`, in their original order. */
  function Filter<T>(s: seq<T>, p: T -> bool): (r: seq<T>)
    ensures |r| <= |s|
    ensures forall i :: 0 <= i < |r| ==> p(r[i])
    ensures forall i :: 0 <= i < |s| && p(s[i]) ==> s[i] in r
    ensures multiset(r) <= multiset(s)
  {
    if s == [] then []
    else
      var rest := Filter(s[..|s| - 1], p);
      var x := s[|s| - 1];
      assert s == s[..|s| - 1] + [x];
      if p(x) then rest + [x] else rest
  }

  lemma {:induction false} FilterConcat<T>(a: seq<T>, b: seq<T>, p: T -> bool)
    ensures Filter(a + b, p) == Filter(a, p) + Filter(b, p)
  {
    if b == [] {
      assert a + b == a;
    } else {
      var b' := b[..|b| - 1];
      assert (a + b)[..|a + b| - 1] == a + b';
      FilterConcat(a, b', p);
    }
  }

  /** Each element kept is kept as often as it occurs; each element dropped, never. */
  lemma {:induction false} FilterCount<T>(s: seq<T>, p: T -> bool, x: T)
    ensures multiset(Filter(s, p))[x] == if p(x) then multiset(s)[x] else 0
  {
    if s != [] {
      var prefix, last := s[..|s| - 1], s[|s| - 1];
      assert s == prefix + [last];
      FilterCount(prefix, p, x);
    }
  }

  /** Keeping every element leaves the sequence as it is. */
  lemma {:induction false} FilterAll<T>(s: seq<T>, p: T -> bool)
    requires forall i :: 0 <= i < |s| ==> p(s[i])
    ensures Filter(s, p) == s
  {
    if s != [] {
      var prefix, last := s[..|s| - 1], s[|s| - 1];
      FilterAll(prefix, p);
      assert s == prefix + [last];
      assert p(last);
    }
  }

  /** Filtering one element keeps it exactly when it passes. */
  lemma {:induction false} FilterSingleton<T>(x: T, p: T -> bool)
    ensures Filter([x], p) == if p(x) then [x] else []
  {
    assert [x][..0] == [];
  }

  /** Two filters in a row are one filter by the conjunction of their tests. */
  lemma {:induction false} FilterFilter<T>(s: seq<T>, p: T -> bool, q: T -> bool, both: T -> bool)
    requires forall x :: both(x) == (p(x) && q(x))
    ensures Filter(Filter(s, p), q) == Filter(s, both)
  {
    if s != [] {
      var prefix, last := s[..|s| - 1], s[|s| - 1];
      assert s == prefix + [last];
      FilterFilter(prefix, p, q, both);
      FilterConcat(prefix, [last], p);
      FilterConcat(prefix, [last], both);
      FilterSingleton(last, p);
      FilterSingleton(last, both);
      FilterConcat(Filter(prefix, p), Filter([last], p), q);
      if p(last) {
        FilterSingleton(last, q);
      }
    }
  }

  /** Two filters in a row keep exactly the elements that pass both, each at most as often as before. */
  lemma {:induction false} FilterTwice<T>(s: seq<T>, p: T -> bool, q: T -> bool)
    ensures var r := Filter(Filter(s, p), q);
      && (forall i :: 0 <= i < |r| ==> p(r[i]) && q(r[i]) && r[i] in s)
      && (forall i :: 0 <= i < |s| && p(s[i]) && q(s[i]) ==> s[i] in r)
      && multiset(r) <= multiset(s)
  {
    var f := Filter(s, p);
    var r := Filter(f, q);
    forall i | 0 <= i < |r| ensures p(r[i]) && q(r[i]) && r[i] in s {
      assert r[i] in multiset(f);
      assert r[i] in f;
      var k :| 0 <= k < |f| && f[k] == r[i];
      assert f[k] in multiset(s);
    }
    forall i | 0 <= i < |s| && p(s[i]) && q(s[i]) ensures s[i] in r {
      assert s[i] in f;
      var k :| 0 <= k < |f| && f[k] == s[i];
    }
  }

  predicate NoDuplicates<T(==)>(s: seq<T>) {
    forall i, j :: 0 <= i < j < |s| ==> s[i] != s[j]
  }

  /** Two equal elements at different places are counted twice. */
  lemma {:induction false} RepeatCounted<T>(s: seq<T>, i: nat, j: nat)
    requires i < j < |s| && s[i] == s[j]
    ensures multiset(s)[s[i]] >= 2
  {
    assert s == s[..i] + [s[i]] + s[i + 1..j] + [s[j]] + s[j + 1..];
  }

  lemma {:induction false} CountedTwiceRepeats<T>(s: seq<T>, x: T)
    requires multiset(s)[x] >= 2
    ensures !NoDuplicates(s)
  {
    var last := s[|s| - 1];
    var prefix := s[..|s| - 1];
    assert s == prefix + [last];
    if last == x && x in prefix {
      var i :| 0 <= i < |prefix| && prefix[i] == x;
      assert s[i] == s[|s| - 1];
    } else {
      assert multiset(prefix)[x] >= 2;
      CountedTwiceRepeats(prefix, x);
      var i, j :| 0 <= i < j < |prefix| && prefix[i] == prefix[j];
      assert s[i] == s[j];
    }
  }

  /** A rearrangement of a sequence without repetitions has none either. */
  lemma {:induction false} DistinctPermutation<T>(a: seq<T>, b: seq<T>)
    requires NoDuplicates(a) && multiset(a) == multiset(b)
    ensures NoDuplicates(b)
  {
    if !NoDuplicates(b) {
      var i, j :| 0 <= i < j < |b| && b[i] == b[j];
      RepeatCounted(b, i, j);
      CountedTwiceRepeats(a, b[i]);
    }
  }

  /**
   * The elements of `s` in order of first occurrence, each once: what iterating a `Set` built by
   * adding the elements of `s` in order yields.
   */
  function Distinct<T(==)>(s: seq<T>): (r: seq<T>)
    ensures NoDuplicates(r)
    ensures forall i :: 0 <= i < |r| ==> r[i] in s
    ensures forall i :: 0 <= i < |s| ==> s[i] in r
  {
    if s == [] then []
    else
      var d := Distinct(s[..|s| - 1]);
      var x := s[|s| - 1];
      assert s == s[..|s| - 1] + [x];
      if x in d then d else d + [x]
  }
}
