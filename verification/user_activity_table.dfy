/**
 * The daily user-activity table: users ranked by their number of sessions, the first `maxRows`
 * shown unless the list is expanded, and the expand toggle.
 */
module UserActivityTable {
  import opened Text
  import opened Numbers
  import opened Sorting

  datatype ActivityEntry = ActivityEntry(userId: string, email: string, totalSessions: int, latestTime: string)

  const DefaultMaxRows := 10
  const DefaultDateLabel := "TODAY"

  function SessionsKey(e: ActivityEntry): int {
    -e.totalSessions
  }

  /** `[...data].sort((a, b) => b.total_sessions - a.total_sessions)`: a sorted copy. */
  function Ranked(data: seq<ActivityEntry>): (r: seq<ActivityEntry>)
    ensures |r| == |data|
    ensures multiset(r) == multiset(data)
  {
    SortBy(data, SessionsKey)
  }

  /** The ranking holds the same entries, most sessions first. */
  lemma {:induction false} RankedSpec(data: seq<ActivityEntry>)
    ensures var r := Ranked(data);
      && multiset(r) == multiset(data)
      && (forall i, j :: 0 <= i < j < |r| ==> r[i].totalSessions >= r[j].totalSessions)
  {
    SortBySorted(data, SessionsKey);
    var r := Ranked(data);
    assert forall i, j :: 0 <= i < j < |r| ==> SessionsKey(r[i]) <= SessionsKey(r[j]);
  }

  /** `showAll ? sortedData : sortedData.slice(0, maxRows)`. */
  function Displayed(data: seq<ActivityEntry>, maxRows: int, showAll: bool): (r: seq<ActivityEntry>)
    ensures showAll ==> |r| == |data|
    ensures !showAll ==> |r| == SliceIndex(maxRows, |data|)
    ensures r == Ranked(data)[..|r|]
  {
    SlicePrefix(Ranked(data), maxRows);
    if showAll then Ranked(data) else Slice(Ranked(data), 0, maxRows)
  }

  /** The toggle appears exactly when there are more entries than `maxRows`. */
  predicate ToggleShown(data: seq<ActivityEntry>, maxRows: int) {
    |data| > maxRows
  }

  /**
   * Collapsed, the table shows the `maxRows` highest-ranked entries (all of them when there are
   * no more), and no entry left out has more sessions than one shown; with no toggle on screen,
   * nothing is left out.
   */
  lemma {:induction false} DisplayedSpec(data: seq<ActivityEntry>, maxRows: nat)
    ensures var all := Ranked(data);
      var shown := Displayed(data, maxRows, false);
      && shown == all[..Min(maxRows, |data|)]
      && (forall i, j :: 0 <= i < |shown| <= j < |all| ==> shown[i].totalSessions >= all[j].totalSessions)
      && (!ToggleShown(data, maxRows) ==> shown == all)
      && (ToggleShown(data, maxRows) ==> |shown| == maxRows)
  {
    var all := Ranked(data);
    RankedSpec(data);
    SliceTake(all, maxRows);
  }

  /** One row on screen: the rank badge, the email, the "Last active:" line and the session count. */
  datatype Row = Row(rank: nat, email: string, lastActive: string, sessions: int)

  /** Each displayed entry with its rank (its position plus one) and its last-active time. */
  function Rows(shown: seq<ActivityEntry>): (r: seq<Row>)
    ensures |r| == |shown|
    ensures forall i :: 0 <= i < |r| ==> r[i] == Row(i + 1, shown[i].email, "Last active: " + shown[i].latestTime, shown[i].totalSessions)
  {
    seq(|shown|, i requires 0 <= i < |shown| => Row(i + 1, shown[i].email, "Last active: " + shown[i].latestTime, shown[i].totalSessions))
  }

  /** The header counts every entry, shown or not. */
  function HeaderText(data: seq<ActivityEntry>): string {
    NatToString(|data|) + " active users"
  }

  function ToggleText(data: seq<ActivityEntry>, showAll: bool): string {
    if showAll then "Show Less" else "View All " + NatToString(|data|) + " Users"
  }

  /** The table's state: whether the list is expanded. */
  class ActivityTable {
    var showAll: bool

    constructor()
      ensures !showAll
    {
      showAll := false;
    }

    /** The toggle flips between the collapsed and the expanded list. */
    method Toggle()
      modifies this
      ensures showAll == !old(showAll)
    {
      showAll := !showAll;
    }

    /**
     * The rows on screen: the ranking from the top, numbered from 1; all of it when expanded,
     * otherwise its first `maxRows` entries.
     */
    method DisplayedRows(data: seq<ActivityEntry>, maxRows: int) returns (rows: seq<Row>)
      ensures |rows| == if showAll then |data| else SliceIndex(maxRows, |data|)
      ensures !showAll && maxRows >= 0 ==> |rows| == Min(maxRows, |data|)
      ensures forall i :: 0 <= i < |rows| ==>
        rows[i] == Row(i + 1, Ranked(data)[i].email, "Last active: " + Ranked(data)[i].latestTime, Ranked(data)[i].totalSessions)
    {
      var shown := Displayed(data, maxRows, showAll);
      RankedSpec(data);
      assert |Ranked(data)| == |data| by {
        assert |multiset(Ranked(data))| == |multiset(data)|;
      }
      SlicePrefix(Ranked(data), maxRows);
      rows := Rows(shown);
    }
  }
}
