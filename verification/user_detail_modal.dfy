/**
 * The user-detail modal: the single expanded row, the ten-session pages with their paginator,
 * the CSV export and the last-active line.
 */
module UserDetailModal {
  import opened Basics
  import opened Text
  import opened Numbers
  import Paging = UserDetailContent

  /** The fields of a session the modal shows; `createdAt` is the creation time in milliseconds. */
  datatype Session = Session(
    patientName: string, createdAt: int, sessionType: string, sessionStatus: string,
    workflowName: string, sessionId: string, workflowId: string)

  /** The key of a table row: a session can appear once per workflow. */
  function RowKey(s: Session): string {
    s.sessionId + "-" + s.workflowId
  }

  /** Rows of the same session get distinct keys exactly when they belong to distinct workflows. */
  lemma {:induction false} RowKeySeparatesWorkflows(a: Session, b: Session)
    requires a.sessionId == b.sessionId
    ensures RowKey(a) == RowKey(b) <==> a.workflowId == b.workflowId
  {
    var prefix := a.sessionId + "-";
    if RowKey(a) == RowKey(b) {
      assert a.workflowId == RowKey(a)[|prefix|..];
      assert b.workflowId == RowKey(b)[|prefix|..];
    }
  }

  // ---------------------------------------------------------------------------------------
  // Row expansion

  /**
   * `toggleRowExpansion`: an expanded row collapses everything, any other row becomes the only
   * one expanded. Whatever was expanded before, afterwards at most one row is, the toggled row
   * is expanded exactly when it was not, and no other row is.
   */
  function Toggled(expanded: set<string>, key: string): (r: set<string>)
    ensures |r| <= 1
    ensures key in r <==> key !in expanded
    ensures forall other :: other in r ==> other == key
  {
    if key in expanded then {} else {key}
  }

  // ---------------------------------------------------------------------------------------
  // Paging

  const MaxPageButtons := 5

  /** `sessions?.slice((page - 1) * 10, page * 10) || []`: the ten-session pages of the user-detail page. */
  function PageOf(sessions: Option<seq<Session>>, page: int): (r: seq<Session>)
    ensures sessions.None? ==> r == []
    ensures |r| <= Paging.ItemsPerPage
    ensures multiset(r) <= multiset(sessions.GetOr([]))
  {
    match sessions
    case None => []
    case Some(s) =>
      SliceWithin(s, (page - 1) * Paging.ItemsPerPage, page * Paging.ItemsPerPage);
      Paging.PageOf(s, page)
  }

  /**
   * Page `p`, counted from 1, holds the sessions from position `10(p-1)` up to ten of them; it is
   * non-empty exactly when `p` is at most the number of pages.
   */
  lemma {:induction false} PageSpec(sessions: seq<Session>, page: int)
    requires page >= 1
    ensures var n := |sessions|;
      var r := PageOf(Some(sessions), page);
      && r == sessions[Min((page - 1) * Paging.ItemsPerPage, n)..Min(page * Paging.ItemsPerPage, n)]
      && (r != [] <==> page <= Paging.TotalPages(n))
  {
    SliceRange(sessions, (page - 1) * Paging.ItemsPerPage, page * Paging.ItemsPerPage);
  }

  /** The paginator is shown only when there is more than one page: more than ten sessions. */
  function ShowPaginator(sessions: Option<seq<Session>>): (shown: bool)
    ensures shown <==> sessions.Some? && |sessions.value| > Paging.ItemsPerPage
  {
    var n := if sessions.Some? then |sessions.value| else 0;
    Paging.TotalPages(n) > 1
  }

  /** The numbered buttons: `1 .. min(5, totalPages)`, whatever the current page. */
  function PageButtons(totalPages: nat): (b: seq<nat>)
    ensures |b| == Min(MaxPageButtons, totalPages)
    ensures forall i :: 0 <= i < |b| ==> b[i] == i + 1
  {
    seq(Min(MaxPageButtons, totalPages), i => i + 1)
  }

  /**
   * Pages beyond the fifth have no button: they are reached only by Next. From page 1, `k`
   * clicks on Next reach page `min(1 + k, totalPages)`.
   */
  function NextClicks(page: int, totalPages: int, k: nat): int
    decreases k
  {
    if k == 0 then page else NextClicks(Paging.NextPage(page, totalPages), totalPages, k - 1)
  }

  lemma {:induction false} NextClicksReach(page: int, totalPages: int, k: nat)
    requires 1 <= page <= totalPages
    ensures NextClicks(page, totalPages, k) == Min(page + k, totalPages)
    decreases k
  {
    if k > 0 {
      NextClicksReach(Paging.NextPage(page, totalPages), totalPages, k - 1);
    }
  }

  // ---------------------------------------------------------------------------------------
  // Export

  const CsvHeader: seq<string> := ["Date", "Patient", "Type", "Status", "Workflow", "Session ID"]

  /** The fields of one session's line; the date is written by the locale's date format. */
  function CsvFields(s: Session, localeDate: int -> string): seq<string> {
    [localeDate(s.createdAt), s.patientName, s.sessionType, s.sessionStatus, s.workflowName, s.sessionId]
  }

  function CsvLines(sessions: seq<Session>, localeDate: int -> string): (lines: seq<string>)
    ensures |lines| == |sessions|
    ensures forall i :: 0 <= i < |sessions| ==> lines[i] == Join(CsvFields(sessions[i], localeDate), ",")
  {
    seq(|sessions|, i requires 0 <= i < |sessions| => Join(CsvFields(sessions[i], localeDate), ","))
  }

  /** The exported file: a header line, then one comma-joined line per session, nothing quoted. */
  function Csv(sessions: seq<Session>, localeDate: int -> string): string {
    Join([Join(CsvHeader, ",")] + CsvLines(sessions, localeDate), "\n")
  }

  /** `exportData` does nothing until the sessions have loaded; the file is named after the user. */
  function Export(sessions: Option<seq<Session>>, userEmail: string, localeDate: int -> string): (r: Option<(string, string)>)
    ensures r.Some? <==> sessions.Some?
    ensures r.Some? ==> r.value.0 == userEmail + "_sessions.csv"
  {
    match sessions
    case None => None
    case Some(s) => Some((userEmail + "_sessions.csv", Csv(s, localeDate)))
  }

  predicate PlainField(f: string) {
    ',' !in f && '\n' !in f
  }

  predicate PlainSession(s: Session, localeDate: int -> string) {
    forall k :: 0 <= k < 6 ==> PlainField(CsvFields(s, localeDate)[k])
  }

  /**
   * When no field holds a comma or a line break, the file reads back as the header and one line
   * per session, each splitting into that session's six fields.
   */
  lemma {:induction false} CsvReadsBack(sessions: seq<Session>, localeDate: int -> string)
    requires forall i :: 0 <= i < |sessions| ==> PlainSession(sessions[i], localeDate)
    ensures var lines := Split(Csv(sessions, localeDate), '\n');
      && |lines| == |sessions| + 1
      && Split(lines[0], ',') == CsvHeader
      && forall i :: 0 <= i < |sessions| ==> Split(lines[i + 1], ',') == CsvFields(sessions[i], localeDate)
  {
    var body := CsvLines(sessions, localeDate);
    var all := [Join(CsvHeader, ",")] + body;
    forall i | 0 <= i < |sessions|
      ensures '\n' !in body[i] && Split(body[i], ',') == CsvFields(sessions[i], localeDate)
    {
      SessionLine(sessions[i], localeDate);
    }
    HeaderLine();
    assert forall i :: 0 <= i < |all| ==> '\n' !in all[i];
    SplitJoin(all, '\n');
  }

  lemma {:induction false} HeaderLine()
    ensures '\n' !in Join(CsvHeader, ",") && Split(Join(CsvHeader, ","), ',') == CsvHeader
  {
    assert forall k :: 0 <= k < |CsvHeader| ==> PlainField(CsvHeader[k]);
    PlainLine(CsvHeader);
  }

  lemma {:induction false} SessionLine(s: Session, localeDate: int -> string)
    requires PlainSession(s, localeDate)
    ensures var fields := CsvFields(s, localeDate);
      '\n' !in Join(fields, ",") && Split(Join(fields, ","), ',') == fields
  {
    PlainLine(CsvFields(s, localeDate));
  }

  /** A line of plain fields has no line break and splits back into its fields. */
  lemma {:induction false} PlainLine(fields: seq<string>)
    requires |fields| >= 1
    requires forall k :: 0 <= k < |fields| ==> PlainField(fields[k])
    ensures '\n' !in Join(fields, ",") && Split(Join(fields, ","), ',') == fields
  {
    JoinWithout(fields, ",", '\n');
    SplitJoin(fields, ',');
  }

  /** A separator-free list joined with a separator free of `c` contains no `c`. */
  lemma {:induction false} JoinWithout(parts: seq<string>, sep: string, c: char)
    requires c !in sep
    requires forall i :: 0 <= i < |parts| ==> c !in parts[i]
    ensures c !in Join(parts, sep)
  {
    if |parts| > 1 {
      JoinWithout(parts[1..], sep, c);
    }
  }

  /**
   * Nothing is quoted: a patient name holding a comma gives that session's line seven fields,
   * shifting the remaining columns.
   */
  lemma {:induction false} CommaShiftsColumns(s: Session, localeDate: int -> string, first: string, last: string)
    requires PlainField(first) && PlainField(last) && s.patientName == first + "," + last
    requires forall k :: 0 <= k < 6 && k != 1 ==> PlainField(CsvFields(s, localeDate)[k])
    ensures |Split(Join(CsvFields(s, localeDate), ","), ',')| == 7
  {
    var f := CsvFields(s, localeDate);
    var g := [f[0], first, last, f[2], f[3], f[4], f[5]];
    assert Join(f, ",") == Join(g, ",") by {
      assert Join(f[1..], ",") == s.patientName + "," + Join(f[2..], ",");
      assert Join(g[2..], ",") == last + "," + Join(f[2..], ",") by {
        assert g[3..] == f[2..];
      }
      assert Join(g[1..], ",") == first + "," + (last + "," + Join(f[2..], ","));
    }
    assert forall k :: 0 <= k < 7 ==> ',' !in g[k];
    SplitJoin(g, ',');
  }

  // ---------------------------------------------------------------------------------------
  // Last active

  /**
   * `getLastActiveTime`: read from the first session, the most recent; whole hours since then,
   * with whole days from 24 hours on.
   */
  function LastActive(sessions: Option<seq<Session>>, now: int): (text: string)
    ensures text == "Never" <==> sessions.None? || sessions.value == []
  {
    if sessions.None? || sessions.value == [] then "Never"
    else
      var hours := (now - sessions.value[0].createdAt) / MsPerHour;
      if hours < 1 then "Less than 1 hour ago"
      else if hours < 24 then IntToString(hours) + " hours ago"
      else NatToString(hours / 24) + " day(s) ago"
  }

  /** The wording follows the elapsed time: under an hour (or in the future), hours under a day, then days. */
  lemma {:induction false} LastActiveSpec(sessions: seq<Session>, now: int)
    requires sessions != []
    ensures var elapsed := now - sessions[0].createdAt;
      var text := LastActive(Some(sessions), now);
      && (elapsed < MsPerHour ==> text == "Less than 1 hour ago")
      && (MsPerHour <= elapsed < MsPerDay ==> text == IntToString(elapsed / MsPerHour) + " hours ago")
      && (elapsed >= MsPerDay ==> text == NatToString(elapsed / MsPerDay) + " day(s) ago")
  {
    var elapsed := now - sessions[0].createdAt;
    FloorDivBounds(elapsed, MsPerHour);
    FloorDivTwice(elapsed, MsPerHour, 24);
  }

  // ---------------------------------------------------------------------------------------
  // State

  /** The modal's own state: the current page and the expanded rows. */
  class DetailModal {
    var currentPage: int
    var expandedRows: set<string>

    constructor()
      ensures currentPage == 1 && expandedRows == {}
    {
      currentPage := 1;
      expandedRows := {};
    }

    /** At most one row is expanded at a time. */
    predicate SingleExpanded()
      reads this
    {
      |expandedRows| <= 1
    }

    method ToggleRowExpansion(key: string)
      modifies this
      ensures expandedRows == Toggled(old(expandedRows), key)
      ensures currentPage == old(currentPage)
      ensures SingleExpanded()
    {
      expandedRows := Toggled(expandedRows, key);
    }

    method PreviousClick()
      modifies this
      ensures currentPage == Paging.PreviousPage(old(currentPage)) && expandedRows == old(expandedRows)
    {
      currentPage := Paging.PreviousPage(currentPage);
    }

    method NextClick(totalPages: int)
      modifies this
      ensures currentPage == Paging.NextPage(old(currentPage), totalPages) && expandedRows == old(expandedRows)
    {
      currentPage := Paging.NextPage(currentPage, totalPages);
    }

    method PageButtonClick(page: int)
      modifies this
      ensures currentPage == page && expandedRows == old(expandedRows)
    {
      currentPage := page;
    }

    /**
     * The sessions on the current page: none before they load; from page 1 on, the (at most ten)
     * sessions that follow the earlier pages' ones, in list order.
     */
    method CurrentPage(sessions: Option<seq<Session>>) returns (page: seq<Session>)
      ensures sessions.None? ==> page == []
      ensures sessions.Some? && currentPage >= 1 ==>
        var first, n := (currentPage - 1) * Paging.ItemsPerPage, |sessions.value|;
        && |page| == (if first >= n then 0 else Min(Paging.ItemsPerPage, n - first))
        && forall i :: 0 <= i < |page| ==> page[i] == sessions.value[first + i]
    {
      page := PageOf(sessions, currentPage);
      if sessions.Some? && currentPage >= 1 {
        SliceRange(sessions.value, (currentPage - 1) * Paging.ItemsPerPage, currentPage * Paging.ItemsPerPage);
      }
    }
  }
}
