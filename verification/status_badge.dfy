/**
 * The status badge's colour: an ordered chain of case-insensitive substring tests on the status.
 */
module StatusBadge {
  import opened Basics
  import opened Text

  datatype Style = Green | Yellow | Red | Gray

  function ClassName(s: Style): string {
    match s
    case Green => "bg-green-100 text-green-800"
    case Yellow => "bg-yellow-100 text-yellow-800"
    case Red => "bg-red-100 text-red-800"
    case Gray => "bg-gray-100 text-gray-800"
  }

  /** Each colour has a class of its own: two styles give the same class only when they are the same style. */
  lemma {:induction false} ClassNamesDistinct(a: Style, b: Style)
    ensures ClassName(a) == ClassName(b) <==> a == b
  {
    if ClassName(a) == ClassName(b) {
      assert ClassName(a)[5] == ClassName(b)[5];
    }
  }

  predicate Mentions(status: string, word: string) {
    Contains(ToLower(status), word)
  }

  /** The words a status is searched for, in lower case. */
  const StatusWords: set<string> := {"complete", "active", "pending", "progress", "failed", "error"}

  /**
   * `getStatusStyle`: green for `complete` or `active`, tested first; then yellow for `pending`
   * or `progress`; then red for `failed` or `error`; gray otherwise.
   */
  function StatusStyle(status: string): (s: Style)
    ensures s == Green <==> Mentions(status, "complete") || Mentions(status, "active")
    ensures s == Yellow ==> Mentions(status, "pending") || Mentions(status, "progress")
    ensures s == Red ==> Mentions(status, "failed") || Mentions(status, "error")
    ensures s == Gray <==> !exists w :: w in StatusWords && Mentions(status, w)
  {
    if Mentions(status, "complete") || Mentions(status, "active") then Green
    else if Mentions(status, "pending") || Mentions(status, "progress") then Yellow
    else if Mentions(status, "failed") || Mentions(status, "error") then Red
    else Gray
  }

  /** A substring stays a substring when text is added on either side. */
  lemma {:induction false} ContainsInConcat(a: string, b: string, sub: string)
    requires Contains(a, sub)
    ensures Contains(a + b, sub) && Contains(b + a, sub)
  {
    var i := IndexOf(a, sub).value;
    assert (a + b)[i..i + |sub|] == a[i..i + |sub|];
    ContainsAt(a + b, sub, i);
    assert (b + a)[|b| + i..|b| + i + |sub|] == a[i..i + |sub|];
    ContainsAt(b + a, sub, |b| + i);
  }

  /** Upper and lower case make no difference to the colour. */
  lemma {:induction false} StyleIgnoresCase(status: string)
    ensures StatusStyle(ToLower(status)) == StatusStyle(status)
  {
    ToLowerIdempotent(status);
  }

  /**
   * Green wins: whatever is written before or after a green status, the badge stays green, so a
   * status such as `error: not completed` is shown as a success.
   */
  lemma {:induction false} GreenWins(status: string, before: string, after: string)
    requires StatusStyle(status) == Green
    ensures StatusStyle(before + status + after) == Green
  {
    var word := if Mentions(status, "complete") then "complete" else "active";
    ToLowerAppend(before, status);
    ToLowerAppend(before + status, after);
    ContainsInConcat(ToLower(status), ToLower(before), word);
    ContainsInConcat(ToLower(before) + ToLower(status), ToLower(after), word);
  }

  /** `inactive` contains `active`, so an inactive status is shown green. */
  lemma {:induction false} InactiveIsGreen()
    ensures StatusStyle("inactive") == Green
  {
    assert ToLower("inactive") == "inactive";
    assert "inactive"[2..8] == "active";
    ContainsAt("inactive", "active", 2);
  }
}
