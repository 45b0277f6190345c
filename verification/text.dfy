/**
 * The JavaScript string operations the dashboard relies on, over `string` (a sequence of
 * characters): decimal rendering of integers (`String(n)`, template literals), `parseInt`,
 * `trim`, `toLowerCase` (ASCII letters only), `includes`, `indexOf`, `replace` with a string
 * pattern, `split`/`join` on one separator, `padEnd` with one character, and the default
 * ordering of `Array.prototype.sort` on strings (character codes, left to right).
 */
module Text {
  import opened Basics

  // ---------------------------------------------------------------------------------------
  // Digits and decimal rendering

  /** The value of `c` as a digit in bases up to 36 (`0`-`9`, `a`-`z`, `A`-`Z`); 36 when `c` is no digit. */
  function CharValue(c: char): (v: nat)
    ensures v <= 36
  {
    if '0' <= c <= '9' then c as int - '0' as int
    else if 'a' <= c <= 'z' then c as int - 'a' as int + 10
    else if 'A' <= c <= 'Z' then c as int - 'A' as int + 10
    else 36
  }

  predicate IsDigit(c: char) {
    '0' <= c <= '9'
  }

  predicate AllDigits(s: string) {
    forall i :: 0 <= i < |s| ==> IsDigit(s[i])
  }

  predicate AllRadixDigits(s: string, radix: nat) {
    forall i :: 0 <= i < |s| ==> CharValue(s[i]) < radix
  }

  function DigitChar(d: nat): (c: char)
    requires d < 10
    ensures IsDigit(c) && CharValue(c) == d
  {
    (48 + d) as char
  }

  /** Decimal rendering of a natural number, most significant digit first, no leading zeros. */
  function NatToString(n: nat): (s: string)
    ensures 1 <= |s| && AllDigits(s)
    ensures |s| > 1 ==> s[0] != '0'
    decreases n
  {
    if n < 10 then [DigitChar(n)] else NatToString(n / 10) + [DigitChar(n % 10)]
  }

  /** Decimal rendering of an integer, as `String(n)` or `${n}` renders a safe integer. */
  function IntToString(n: int): (s: string)
    ensures 1 <= |s|
  {
    if n < 0 then "-" + NatToString(-n) else NatToString(n)
  }

  /** The number a string of digits denotes in the given base. */
  function RadixValue(s: string, radix: nat): nat
    requires AllRadixDigits(s, radix)
  {
    if s == [] then 0 else RadixValue(s[..|s| - 1], radix) * radix + CharValue(s[|s| - 1])
  }

  lemma {:induction false} NatToStringValue(n: nat)
    ensures AllRadixDigits(NatToString(n), 10)
    ensures RadixValue(NatToString(n), 10) == n
  {
    var s := NatToString(n);
    if n >= 10 {
      NatToStringValue(n / 10);
      assert s[..|s| - 1] == NatToString(n / 10);
    }
  }

  // ---------------------------------------------------------------------------------------
  // Whitespace and trimming

  /** The ECMAScript WhiteSpace and LineTerminator characters, which `trim` and `parseInt` skip. */
  predicate IsWhitespace(c: char) {
    c == '\t' || c == '\n' || c == '\U{000B}' || c == '\U{000C}' || c == '\r' || c == ' '
    || c == '\U{00A0}' || c == '\U{1680}' || ('\U{2000}' <= c <= '\U{200A}')
    || c == '\U{2028}' || c == '\U{2029}' || c == '\U{202F}' || c == '\U{205F}'
    || c == '\U{3000}' || c == '\U{FEFF}'
  }

  function TrimStart(s: string): (r: string)
    ensures |r| <= |s| && r == s[|s| - |r|..]
    ensures r != [] ==> !IsWhitespace(r[0])
    ensures forall i :: 0 <= i < |s| - |r| ==> IsWhitespace(s[i])
  {
    if s != [] && IsWhitespace(s[0]) then TrimStart(s[1..]) else s
  }

  function TrimEnd(s: string): (r: string)
    ensures |r| <= |s| && r == s[..|r|]
    ensures r != [] ==> !IsWhitespace(r[|r| - 1])
    ensures forall i :: |r| <= i < |s| ==> IsWhitespace(s[i])
  {
    if s != [] && IsWhitespace(s[|s| - 1]) then TrimEnd(s[..|s| - 1]) else s
  }

  /** `s.trim()`: `s` without its leading and trailing whitespace. */
  function Trim(s: string): (r: string)
    ensures |r| <= |s|
    ensures r != [] ==> !IsWhitespace(r[0]) && !IsWhitespace(r[|r| - 1])
  {
    var t := TrimStart(s);
    var r := TrimEnd(t);
    assert r != [] ==> r[0] == t[0];
    r
  }

  /** `s.trim()` is empty exactly when every character of `s` is whitespace. */
  lemma {:induction false} TrimEmpty(s: string)
    ensures Trim(s) == [] <==> forall i :: 0 <= i < |s| ==> IsWhitespace(s[i])
  {
    var t := TrimStart(s);
    if Trim(s) == [] && t != [] {
      assert false;
    }
  }

  // ---------------------------------------------------------------------------------------
  // parseInt

  /** The longest prefix of `s` made of digits of the given base. */
  function LeadingDigits(s: string, radix: nat): (r: string)
    ensures |r| <= |s| && r == s[..|r|] && AllRadixDigits(r, radix)
    ensures |r| < |s| ==> CharValue(s[|r|]) >= radix
  {
    if s != [] && CharValue(s[0]) < radix then [s[0]] + LeadingDigits(s[1..], radix) else []
  }

  lemma {:induction false} LeadingDigitsOfDigits(s: string, radix: nat)
    requires AllRadixDigits(s, radix)
    ensures LeadingDigits(s, radix) == s
  {
    if s != [] { LeadingDigitsOfDigits(s[1..], radix); }
  }

  /**
   * `parseInt(s, radix)` for radix 10 (`hexPrefix` false) and `parseInt(s)` without a radix
   * (`hexPrefix` true, where a `0x`/`0X` after the sign switches to base 16): skip leading
   * whitespace, take an optional sign, then the longest run of digits; `None` stands for NaN.
   */
  function ParseIntWith(s: string, hexPrefix: bool): (r: Option<int>)
  {
    var t := TrimStart(s);
    if |t| > 0 && t[0] == '-' then
      match ParseUnsigned(t[1..], hexPrefix)
      case None => None
      case Some(v) => Some(-(v as int))
    else if |t| > 0 && t[0] == '+' then ParseUnsigned(t[1..], hexPrefix)
    else ParseUnsigned(t, hexPrefix)
  }

  /** The digits after the sign: a `0x`/`0X` prefix selects base 16 when `hexPrefix` holds. */
  function ParseUnsigned(u: string, hexPrefix: bool): (r: Option<nat>)
  {
    var hex := hexPrefix && |u| >= 2 && u[0] == '0' && (u[1] == 'x' || u[1] == 'X');
    var radix := if hex then 16 else 10;
    var digits := LeadingDigits(if hex then u[2..] else u, radix);
    if digits == [] then None else Some(RadixValue(digits, radix))
  }

  /** `parseInt(s, 10)`. */
  function ParseIntDecimal(s: string): Option<int> {
    ParseIntWith(s, false)
  }

  /** `parseInt(s)` with no radix argument. */
  function ParseInt(s: string): Option<int> {
    ParseIntWith(s, true)
  }

  lemma {:induction false} ParseUnsignedDigits(ds: string, hexPrefix: bool)
    requires 1 <= |ds| && AllDigits(ds)
    ensures AllRadixDigits(ds, 10)
    ensures ParseUnsigned(ds, hexPrefix) == Some(RadixValue(ds, 10))
  {
    assert AllRadixDigits(ds, 10) by {
      forall i | 0 <= i < |ds| ensures CharValue(ds[i]) < 10 { assert IsDigit(ds[i]); }
    }
    LeadingDigitsOfDigits(ds, 10);
    assert |ds| >= 2 ==> ds[1] != 'x' && ds[1] != 'X' by {
      if |ds| >= 2 { assert IsDigit(ds[1]); }
    }
  }

  /** A run of decimal digits parses to its value. */
  lemma {:induction false} ParseDigits(ds: string, hexPrefix: bool)
    requires 1 <= |ds| && AllDigits(ds)
    ensures AllRadixDigits(ds, 10)
    ensures ParseIntWith(ds, hexPrefix) == Some(RadixValue(ds, 10))
  {
    ParseUnsignedDigits(ds, hexPrefix);
    assert IsDigit(ds[0]);
    assert !IsWhitespace(ds[0]);
    assert TrimStart(ds) == ds;
  }

  /** A minus sign followed by a run of decimal digits parses to the negated value. */
  lemma {:induction false} ParseNegativeDigits(ds: string, hexPrefix: bool)
    requires 1 <= |ds| && AllDigits(ds)
    ensures AllRadixDigits(ds, 10)
    ensures ParseIntWith("-" + ds, hexPrefix) == Some(-(RadixValue(ds, 10) as int))
  {
    ParseUnsignedDigits(ds, hexPrefix);
    ParseMinus(ds, hexPrefix, RadixValue(ds, 10));
  }

  /** A minus sign followed by `u` parses to the negated value of `u`. */
  lemma {:induction false} ParseMinus(u: string, hexPrefix: bool, v: nat)
    requires ParseUnsigned(u, hexPrefix) == Some(v)
    ensures ParseIntWith("-" + u, hexPrefix) == Some(-(v as int))
  {
    var s := "-" + u;
    assert s[0] == '-' && s[1..] == u;
    assert !IsWhitespace(s[0]);
    assert TrimStart(s) == s;
  }

  /** Reading back a rendered integer with `parseInt(_, 10)` gives the integer. */
  lemma {:induction false} ParseIntDecimalOfIntToString(n: int)
    ensures ParseIntDecimal(IntToString(n)) == Some(n)
  {
    var m := if n < 0 then -n else n;
    NatToStringValue(m);
    if n < 0 {
      ParseNegativeDigits(NatToString(m), false);
    } else {
      ParseDigits(NatToString(m), false);
    }
  }

  /** Reading back a rendered natural number with `parseInt(_)` gives the number. */
  lemma {:induction false} ParseIntOfNatToString(n: nat)
    ensures ParseInt(NatToString(n)) == Some(n)
  {
    NatToStringValue(n);
    ParseDigits(NatToString(n), true);
  }

  // ---------------------------------------------------------------------------------------
  // Case, substrings and replacement

  /** `toLowerCase` of one character, for the ASCII letters. */
  function LowerChar(c: char): char {
    if 'A' <= c <= 'Z' then (c as int + 32) as char else c
  }

  /** `toLowerCase` on the ASCII letters. */
  function ToLower(s: string): (r: string)
    ensures |r| == |s|
    ensures forall i :: 0 <= i < |s| ==> r[i] == LowerChar(s[i])
  {
    if s == [] then [] else [LowerChar(s[0])] + ToLower(s[1..])
  }

  /** Lowercasing works character by character, so it distributes over concatenation. */
  lemma {:induction false} ToLowerAppend(a: string, b: string)
    ensures ToLower(a + b) == ToLower(a) + ToLower(b)
  {
    var l := ToLower(a + b);
    var r := ToLower(a) + ToLower(b);
    forall i | 0 <= i < |l| ensures l[i] == r[i] {
      if i < |a| {
        assert (a + b)[i] == a[i];
      } else {
        assert (a + b)[i] == b[i - |a|];
      }
    }
  }

  lemma {:induction false} ToLowerIdempotent(s: string)
    ensures ToLower(ToLower(s)) == ToLower(s)
  {
  }

  predicate StartsWith(s: string, prefix: string) {
    |prefix| <= |s| && s[..|prefix|] == prefix
  }

  predicate EndsWith(s: string, suffix: string) {
    |suffix| <= |s| && s[|s| - |suffix|..] == suffix
  }

  /** `s.includes(sub)`. */
  predicate Contains(s: string, sub: string) {
    StartsWith(s, sub) || (|s| > 0 && Contains(s[1..], sub))
  }

  /** `s.indexOf(sub)`, with `None` for -1. */
  function IndexOf(s: string, sub: string): (r: Option<nat>)
    ensures r.Some? ==> r.value + |sub| <= |s| && s[r.value..r.value + |sub|] == sub
    ensures r.Some? ==> forall j :: 0 <= j < r.value ==> !StartsWith(s[j..], sub)
    ensures r.None? <==> !Contains(s, sub)
  {
    if StartsWith(s, sub) then Some(0)
    else if s == [] then None
    else match IndexOf(s[1..], sub)
      case None => None
      case Some(i) =>
        assert forall j :: 1 <= j <= i ==> s[j..] == s[1..][j - 1..];
        Some(i + 1)
  }

  lemma {:induction false} ContainsAt(s: string, sub: string, i: nat)
    requires i + |sub| <= |s| && s[i..i + |sub|] == sub
    ensures Contains(s, sub)
  {
    if i > 0 {
      assert s[1..][i - 1..i - 1 + |sub|] == sub;
      ContainsAt(s[1..], sub, i - 1);
    }
  }

  /** `s.replace(pattern, replacement)` with a string pattern: only the first occurrence is replaced. */
  function ReplaceFirst(s: string, pattern: string, replacement: string): (r: string)
    ensures !Contains(s, pattern) ==> r == s
  {
    match IndexOf(s, pattern)
    case None => s
    case Some(i) => s[..i] + replacement + s[i + |pattern|..]
  }

  // ---------------------------------------------------------------------------------------
  // split and join on one character

  function Count(s: string, c: char): nat {
    if s == [] then 0 else (if s[0] == c then 1 else 0) + Count(s[1..], c)
  }

  lemma {:induction false} CountConcat(a: string, b: string, c: char)
    ensures Count(a + b, c) == Count(a, c) + Count(b, c)
  {
    if a != [] {
      assert (a + b)[0] == a[0] && (a + b)[1..] == a[1..] + b;
      CountConcat(a[1..], b, c);
    } else {
      assert a + b == b;
    }
  }

  lemma {:induction false} CountAbsent(s: string, c: char)
    requires c !in s
    ensures Count(s, c) == 0
  {
    if s != [] { CountAbsent(s[1..], c); }
  }

  /** `s.split(sep)` for a one-character separator. */
  function Split(s: string, sep: char): (parts: seq<string>)
    ensures |parts| == Count(s, sep) + 1
    ensures forall i :: 0 <= i < |parts| ==> sep !in parts[i]
  {
    if s == [] then [""]
    else
      var rest := Split(s[1..], sep);
      if s[0] == sep then [""] + rest else [[s[0]] + rest[0]] + rest[1..]
  }

  /** `parts.join(sep)`. */
  function Join(parts: seq<string>, sep: string): string {
    if |parts| == 0 then ""
    else if |parts| == 1 then parts[0]
    else parts[0] + sep + Join(parts[1..], sep)
  }

  lemma {:induction false} SplitWithout(s: string, sep: char)
    requires sep !in s
    ensures Split(s, sep) == [s]
  {
    if s != [] {
      assert s[0] in s && sep !in s[1..];
      SplitWithout(s[1..], sep);
      assert s == [s[0]] + s[1..];
    }
  }

  lemma {:induction false} SplitAround(p: string, t: string, sep: char)
    requires sep !in p
    ensures Split(p + [sep] + t, sep) == [p] + Split(t, sep)
  {
    if p != [] {
      assert (p + [sep] + t)[0] == p[0] && (p + [sep] + t)[1..] == p[1..] + [sep] + t;
      assert p[0] in p && sep !in p[1..];
      SplitAround(p[1..], t, sep);
      assert p == [p[0]] + p[1..];
    } else {
      assert (p + [sep] + t)[1..] == t;
    }
  }

  /** Joining with a separator that none of the parts contains, then splitting on it, gives back the parts. */
  lemma {:induction false} SplitJoin(parts: seq<string>, sep: char)
    requires |parts| >= 1
    requires forall i :: 0 <= i < |parts| ==> sep !in parts[i]
    ensures Split(Join(parts, [sep]), sep) == parts
  {
    if |parts| == 1 {
      SplitWithout(parts[0], sep);
    } else {
      SplitJoin(parts[1..], sep);
      SplitAround(parts[0], Join(parts[1..], [sep]), sep);
    }
  }

  /** Splitting a concatenation: the last part of `p` and the first part of `q` fuse into one. */
  lemma {:induction false} SplitConcat(p: string, q: string, sep: char)
    ensures var sp := Split(p, sep); var sq := Split(q, sep);
      Split(p + q, sep) == sp[..|sp| - 1] + [sp[|sp| - 1] + sq[0]] + sq[1..]
  {
    var sq := Split(q, sep);
    if p == [] {
      assert p + q == q;
      var sp := Split(p, sep);
      assert sp == [""];
      assert sp[..|sp| - 1] == [] && sp[|sp| - 1] + sq[0] == sq[0];
      assert sq == [sq[0]] + sq[1..];
    } else {
      assert (p + q)[1..] == p[1..] + q;
      SplitConcat(p[1..], q, sep);
      SplitConcatStep(p, q, sep, Split(p[1..], sep), sq, Split(p[1..] + q, sep));
    }
  }

  lemma {:induction false} SplitConcatStep(p: string, q: string, sep: char, sp': seq<string>, sq: seq<string>, rest: seq<string>)
    requires p != [] && (p + q)[1..] == p[1..] + q
    requires sp' == Split(p[1..], sep) && sq == Split(q, sep) && rest == Split(p[1..] + q, sep)
    requires rest == sp'[..|sp'| - 1] + [sp'[|sp'| - 1] + sq[0]] + sq[1..]
    ensures var sp := Split(p, sep);
      Split(p + q, sep) == sp[..|sp| - 1] + [sp[|sp| - 1] + sq[0]] + sq[1..]
  {
    var c := p[0];
    assert (p + q)[0] == c;
    if c == sep {
      SplitSepFirst(p, sep);
      SplitSepFirst(p + q, sep);
      PrependEmpty(sp', sq, rest);
    } else {
      SplitCharFirst(p, sep);
      SplitCharFirst(p + q, sep);
      assert (p + q)[1..] == p[1..] + q;
      FuseFirst(c, sp', sq, rest);
    }
  }

  /** The sequence step of `SplitConcat` when `p` starts with the separator. */
  lemma {:induction false} PrependEmpty(sp': seq<string>, sq: seq<string>, rest: seq<string>)
    requires |sp'| >= 1 && |sq| >= 1
    requires rest == sp'[..|sp'| - 1] + [sp'[|sp'| - 1] + sq[0]] + sq[1..]
    ensures var sp := [""] + sp';
      [""] + rest == sp[..|sp| - 1] + [sp[|sp| - 1] + sq[0]] + sq[1..]
  {
    var sp := [""] + sp';
    assert sp[..|sp| - 1] == [""] + sp'[..|sp'| - 1];
    assert sp[|sp| - 1] == sp'[|sp'| - 1];
  }

  lemma {:induction false} SplitSepFirst(s: string, sep: char)
    requires s != [] && s[0] == sep
    ensures Split(s, sep) == [""] + Split(s[1..], sep)
  {
  }

  lemma {:induction false} SplitCharFirst(s: string, sep: char)
    requires s != [] && s[0] != sep
    ensures var rest := Split(s[1..], sep); Split(s, sep) == [[s[0]] + rest[0]] + rest[1..]
  {
  }

  /** The sequence step of `SplitConcat` when `p` starts with an ordinary character. */
  lemma {:induction false} FuseFirst(c: char, sp': seq<string>, sq: seq<string>, rest: seq<string>)
    requires |sp'| >= 1 && |sq| >= 1
    requires rest == sp'[..|sp'| - 1] + [sp'[|sp'| - 1] + sq[0]] + sq[1..]
    ensures var sp := [[c] + sp'[0]] + sp'[1..];
      [[c] + rest[0]] + rest[1..] == sp[..|sp| - 1] + [sp[|sp| - 1] + sq[0]] + sq[1..]
  {
    var n := |sp'|;
    if n == 1 {
      var sp := [[c] + sp'[0]] + sp'[1..];
      assert rest[0] == sp'[0] + sq[0] && rest[1..] == sq[1..];
      assert [c] + rest[0] == ([c] + sp'[0]) + sq[0];
      assert sp == [[c] + sp'[0]];
    } else {
      var mid := sp'[1..n - 1];
      var tail := [sp'[n - 1] + sq[0]] + sq[1..];
      assert sp'[..n - 1] == [sp'[0]] + mid;
      assert rest[0] == sp'[0];
      assert rest[1..] == mid + tail;
    }
  }

  /**
   * When `p` is empty or ends with the separator, the parts of `p + q` are those of `p` before its
   * final (empty) part, then those of `q`: line `Count(p, sep) + j` of `p + q` is line `j` of `q`.
   */
  lemma {:induction false} SplitAfterLine(p: string, q: string, sep: char)
    requires p == [] || p[|p| - 1] == sep
    ensures Split(p + q, sep) == Split(p, sep)[..Count(p, sep)] + Split(q, sep)
  {
    SplitConcat(p, q, sep);
    if p != [] {
      SplitLastEmpty(p, sep);
    }
    DropEmptyLast(Split(p, sep), Split(q, sep), Split(p + q, sep));
  }

  /** A string that ends with the separator has an empty last part. */
  lemma {:induction false} SplitLastEmpty(p: string, sep: char)
    requires p != [] && p[|p| - 1] == sep
    ensures Split(p, sep)[Count(p, sep)] == ""
  {
    var p' := p[..|p| - 1];
    assert p == p' + [sep];
    SplitConcat(p', [sep], sep);
    assert Split([sep], sep) == ["", ""];
  }

  lemma {:induction false} DropEmptyLast(sp: seq<string>, sq: seq<string>, r: seq<string>)
    requires |sp| >= 1 && |sq| >= 1 && sp[|sp| - 1] == ""
    requires r == sp[..|sp| - 1] + [sp[|sp| - 1] + sq[0]] + sq[1..]
    ensures r == sp[..|sp| - 1] + sq
  {
    assert sp[|sp| - 1] + sq[0] == sq[0];
    assert sq == [sq[0]] + sq[1..];
  }

  /** A whole line that follows a line break is the line numbered by the breaks before it. */
  lemma {:induction false} LineAfterBreak(before: string, line: string, tail: string, sep: char)
    requires before == [] || before[|before| - 1] == sep
    requires sep !in line
    ensures var parts := Split(before + (line + [sep] + tail), sep);
      Count(before, sep) < |parts| && parts[Count(before, sep)] == line
  {
    SplitAfterLine(before, line + [sep] + tail, sep);
    SplitAround(line, tail, sep);
  }

  /** Splitting, then joining with the same separator, gives back the string. */
  lemma {:induction false} JoinSplit(s: string, sep: char)
    ensures Join(Split(s, sep), [sep]) == s
  {
    if s != [] {
      JoinSplit(s[1..], sep);
      var rest := Split(s[1..], sep);
      if s[0] != sep {
        if |rest| > 1 {
          assert ([[s[0]] + rest[0]] + rest[1..])[1..] == rest[1..];
        }
      }
    }
  }

  /** `parts.join('')`. */
  function Concat(parts: seq<string>): string {
    if parts == [] then "" else Concat(parts[..|parts| - 1]) + parts[|parts| - 1]
  }

  lemma {:induction false} ConcatAppend(a: seq<string>, b: seq<string>)
    ensures Concat(a + b) == Concat(a) + Concat(b)
  {
    if b == [] {
      assert a + b == a;
    } else {
      var b' := b[..|b| - 1];
      assert (a + b)[..|a + b| - 1] == a + b';
      assert (a + b)[|a + b| - 1] == b[|b| - 1];
      ConcatAppend(a, b');
    }
  }

  lemma {:induction false} ConcatAt(parts: seq<string>, k: nat)
    requires k < |parts|
    ensures Concat(parts) == Concat(parts[..k]) + parts[k] + Concat(parts[k + 1..])
  {
    var front, one, rest := parts[..k], [parts[k]], parts[k + 1..];
    assert parts == front + (one + rest);
    ConcatAppend(front, one + rest);
    ConcatAppend(one, rest);
    assert one[..0] == [];
    assert Concat(one) == Concat([]) + parts[k] == parts[k];
  }

  /** A string of `n` copies of `c` (`''.padEnd(n, c)`). */
  function Repeat(c: char, n: nat): (r: string)
    ensures |r| == n && forall i :: 0 <= i < n ==> r[i] == c
  {
    seq(n, _ => c)
  }

  // ---------------------------------------------------------------------------------------
  // Ordering

  /** `a` sorts no later than `b` under the default string comparison (character codes, left to right). */
  predicate StrLe(a: string, b: string) {
    |a| == 0 || (|b| > 0 && (a[0] < b[0] || (a[0] == b[0] && StrLe(a[1..], b[1..]))))
  }

  lemma {:induction false} StrLeTotal(a: string, b: string)
    ensures StrLe(a, b) || StrLe(b, a)
  {
    if |a| > 0 && |b| > 0 && a[0] == b[0] { StrLeTotal(a[1..], b[1..]); }
  }

  lemma {:induction false} StrLeTransitive(a: string, b: string, c: string)
    requires StrLe(a, b) && StrLe(b, c)
    ensures StrLe(a, c)
  {
    if |a| > 0 && a[0] == b[0] && b[0] == c[0] { StrLeTransitive(a[1..], b[1..], c[1..]); }
  }

  lemma {:induction false} StrLeAntisymmetric(a: string, b: string)
    requires StrLe(a, b) && StrLe(b, a)
    ensures a == b
  {
    if |a| > 0 {
      StrLeAntisymmetric(a[1..], b[1..]);
      assert a == [a[0]] + a[1..] && b == [b[0]] + b[1..];
    }
  }
}
