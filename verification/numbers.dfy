/**
 * The JavaScript number and array arithmetic the dashboard uses, on unbounded integers:
 * `Math.floor` of a quotient (Dafny's `/` with a positive divisor already rounds down),
 * `Math.round` of a quotient, `Math.min`/`Math.max` clamping, and `Array.prototype.slice`.
 */
module Numbers {

  /** Milliseconds in an hour and in a day of 24 hours. */
  const MsPerHour := 3600000
  const MsPerDay := 86400000

  lemma {:induction false} FloorDivBounds(n: int, d: int)
    requires d > 0
    ensures d * (n / d) <= n < d * (n / d) + d
  {
  }

  /** The only `q` with `d * q <= n < d * q + d` is `n / d`. */
  lemma {:induction false} FloorDivUnique(n: int, d: int, q: int)
    requires d > 0 && d * q <= n < d * q + d
    ensures n / d == q
  {
    var q0 := n / d;
    FloorDivBounds(n, d);
    if q0 < q {
      MulMonotone(d, q0 + 1, q);
    } else if q0 > q {
      MulMonotone(d, q + 1, q0);
    }
  }

  /** Flooring twice is flooring once by the product: `floor(floor(n / a) / b) == floor(n / (a * b))`. */
  lemma {:induction false} FloorDivTwice(n: int, a: int, b: int)
    requires a > 0 && b > 0
    ensures (n / a) / b == n / (a * b)
  {
    var h := n / a;
    var q := h / b;
    FloorDivBounds(n, a);
    FloorDivBounds(h, b);
    MulMonotone(a, b * q, h);
    MulMonotone(a, h + 1, b * q + b);
    assert a * (b * q) == (a * b) * q;
    assert a * (b * q + b) == (a * b) * q + a * b;
    FloorDivUnique(n, a * b, q);
  }

  /**
   * `Math.round(p / q)`: the integer nearest to the exact quotient, a half rounded towards
   * positive infinity (`Math.round(x)` is `Math.floor(x + 0.5)`).
   */
  function RoundQuotient(p: int, q: int): (r: int)
    requires q != 0
    ensures q > 0 ==> q * (2 * r - 1) <= 2 * p < q * (2 * r + 1)
    ensures q < 0 ==> q * (2 * r + 1) < 2 * p <= q * (2 * r - 1)
  {
    var n, d := 2 * p + q, 2 * q;
    if d > 0 then
      FloorDivBounds(n, d);
      n / d
    else
      FloorDivBounds(-n, -d);
      (-n) / (-d)
  }

  /** The rounded quotient is the only integer within one half of `p / q`. */
  lemma {:induction false} RoundQuotientUnique(p: int, q: int, r: int)
    requires q > 0 && q * (2 * r - 1) <= 2 * p < q * (2 * r + 1)
    ensures r == RoundQuotient(p, q)
  {
    var r0 := RoundQuotient(p, q);
    if r < r0 {
      MulMonotone(q, 2 * r + 1, 2 * r0 - 1);
    } else if r > r0 {
      MulMonotone(q, 2 * r0 + 1, 2 * r - 1);
    }
  }

  lemma {:induction false} MulMonotone(q: int, a: int, b: int)
    requires q > 0 && a <= b
    ensures q * a <= q * b
  {
    assert q * b - q * a == q * (b - a);
  }

  /** `Math.min(Math.max(x, lo), hi)`. */
  function Clamp(x: int, lo: int, hi: int): (r: int)
    requires lo <= hi
    ensures lo <= r <= hi
    ensures lo <= x <= hi ==> r == x
    ensures x < lo ==> r == lo
    ensures x > hi ==> r == hi
  {
    var atLeast := if x > lo then x else lo;
    if atLeast < hi then atLeast else hi
  }

  function Min(a: int, b: int): int {
    if a < b then a else b
  }

  /** How `Array.prototype.slice` reads an index argument: negative counts from the end, then clamp to [0, len]. */
  function SliceIndex(i: int, len: nat): (k: nat)
    ensures k <= len
    ensures 0 <= i <= len ==> k == i
  {
    if i < 0 then (if len + i < 0 then 0 else len + i)
    else if i > len then len
    else i
  }

  /** `s.slice(start, end)`. */
  function Slice<T>(s: seq<T>, start: int, end: int): (r: seq<T>)
  {
    var a, b := SliceIndex(start, |s|), SliceIndex(end, |s|);
    if a < b then s[a..b] else []
  }

  /** A slice takes nothing that is not in the sequence, and nothing more often. */
  lemma {:induction false} SliceWithin<T>(s: seq<T>, start: int, end: int)
    ensures multiset(Slice(s, start, end)) <= multiset(s)
  {
    var a, b := SliceIndex(start, |s|), SliceIndex(end, |s|);
    if a < b {
      assert s == s[..a] + s[a..b] + s[b..];
    }
  }

  /** `s.slice(0, n)` for `n >= 0` keeps the first `n` elements, or all of them when there are fewer. */
  lemma {:induction false} SliceTake<T>(s: seq<T>, n: int)
    requires n >= 0
    ensures Slice(s, 0, n) == s[..Min(n, |s|)]
  {
  }

  /** `s.slice(0, n)` for any `n` is a prefix: negative `n` counts back from the end. */
  lemma {:induction false} SlicePrefix<T>(s: seq<T>, n: int)
    ensures Slice(s, 0, n) == s[..SliceIndex(n, |s|)]
  {
  }

  /** `s.slice(a, b)` for `0 <= a <= b`. */
  lemma {:induction false} SliceRange<T>(s: seq<T>, a: int, b: int)
    requires 0 <= a <= b
    ensures Slice(s, a, b) == if a >= |s| then [] else s[a..Min(b, |s|)]
  {
  }
}
