/**
 * The table of all users grouped by center: each user's inactivity flag and last-seen text,
 * the per-center ordering of users by their last session, and the sort control's state.
 * `now` is the clock reading, in milliseconds, the rows are rendered with.
 */
module AllUsersTable {
  import opened Basics
  import opened Types
  import opened Text
  import opened Numbers
  import opened Sorting

  // ---------------------------------------------------------------------------------------
  // One user's row

  /**
   * No last session, or more than `thresholdDays` days of 24 hours since it: the elapsed days,
   * a fraction, compared with the threshold without rounding.
   */
  predicate IsInactive(user: UserAnalytics, now: int, thresholdDays: int) {
    match user.lastSessionTime
    case None => true
    case Some(t) => now - t > thresholdDays * MsPerDay
  }

  /** `Math.floor` of the elapsed days. */
  function DaysSince(t: int, now: int): int {
    (now - t) / MsPerDay
  }

  /** `Never` exactly when there is no last session, else the whole days and ` days ago`. */
  function LastSeenText(user: UserAnalytics, now: int): (r: string)
    ensures r == "Never" <==> user.lastSessionTime.None?
    ensures user.lastSessionTime.Some? ==> EndsWith(r, " days ago") && |r| > |" days ago"|
  {
    match user.lastSessionTime
    case None => "Never"
    case Some(t) => IntToString(DaysSince(t, now)) + " days ago"
  }

  /**
   * The whole days shown agree with the flag: more days than the threshold means inactive, and an
   * inactive user shows at least the threshold.
   */
  lemma {:induction false} ShownDaysAgreeWithFlag(user: UserAnalytics, now: int, thresholdDays: int)
    requires user.lastSessionTime.Some?
    ensures var d := DaysSince(user.lastSessionTime.value, now);
      && (d > thresholdDays ==> IsInactive(user, now, thresholdDays))
      && (IsInactive(user, now, thresholdDays) ==> d >= thresholdDays)
  {
    var x := now - user.lastSessionTime.value;
    var d := DaysSince(user.lastSessionTime.value, now);
    FloorDivBounds(x, MsPerDay);
    if d > thresholdDays {
      MulMonotone(MsPerDay, thresholdDays + 1, d);
    }
    if x > thresholdDays * MsPerDay && d < thresholdDays {
      MulMonotone(MsPerDay, d + 1, thresholdDays);
    }
  }

  datatype UserRow = UserRow(email: string, userType: string, lastSeen: string, extensionVersion: string, inactive: bool)

  /** A row: the version, or `N/A` when there is none. */
  function Row(user: UserAnalytics, now: int, thresholdDays: int): (r: UserRow)
    ensures r.extensionVersion != ""
    ensures r.extensionVersion == "N/A" <==> !Truthy(user.currExtensionVersion) || user.currExtensionVersion.value == "N/A"
    ensures r.inactive <==> IsInactive(user, now, thresholdDays)
  {
    UserRow(user.email, user.userType, LastSeenText(user, now),
            if Truthy(user.currExtensionVersion) then user.currExtensionVersion.value else "N/A",
            IsInactive(user, now, thresholdDays))
  }

  // ---------------------------------------------------------------------------------------
  // Ordering users within each center

  datatype Direction = Asc | Desc

  function Flip(d: Direction): Direction {
    if d == Asc then Desc else Asc
  }

  const LastActivityColumn := "lastActivityAt"

  /** The time the comparator reads: the last session, or 0 without one. */
  function LastActivity(u: UserAnalytics): int {
    u.lastSessionTime.GetOr(0)
  }

  /**
   * `[...users].sort(cmp)`: by last activity ascending (`dateA - dateB`), descending
   * (`dateB - dateA`), or, for any other column, a comparator that is always 0.
   */
  function SortUsers(users: seq<UserAnalytics>, column: Option<string>, direction: Direction): (r: seq<UserAnalytics>)
    ensures |r| == |users|
    ensures multiset(r) == multiset(users)
  {
    if column == Some(LastActivityColumn) then
      if direction == Asc then SortBy(users, LastActivity) else SortBy(users, (u: UserAnalytics) => -LastActivity(u))
    else SortBy(users, (u: UserAnalytics) => 0)
  }

  /** Every center with its users sorted, the centers in their order. */
  function SortCenters(centers: seq<CenterSummary>, column: Option<string>, direction: Direction): (r: seq<CenterSummary>)
    ensures |r| == |centers|
  {
    seq(|centers|, i requires 0 <= i < |centers| => centers[i].(users := SortUsers(centers[i].users, column, direction)))
  }

  /**
   * Each center keeps its place and every field but `users`; its users are the same users,
   * reordered by last activity in the chosen direction.
   */
  lemma {:induction false} SortCentersSpec(centers: seq<CenterSummary>, direction: Direction, i: nat)
    requires i < |centers|
    ensures var r := SortCenters(centers, Some(LastActivityColumn), direction);
      var us := r[i].users;
      && r[i] == centers[i].(users := us)
      && multiset(us) == multiset(centers[i].users)
      && (direction == Asc ==> forall a, b :: 0 <= a < b < |us| ==> LastActivity(us[a]) <= LastActivity(us[b]))
      && (direction == Desc ==> forall a, b :: 0 <= a < b < |us| ==> LastActivity(us[a]) >= LastActivity(us[b]))
  {
    var users := centers[i].users;
    if direction == Asc {
      SortBySorted(users, LastActivity);
    } else {
      var key := (u: UserAnalytics) => -LastActivity(u);
      SortBySorted(users, key);
      var us := SortBy(users, key);
      assert forall a, b :: 0 <= a < b < |us| ==> key(us[a]) <= key(us[b]);
    }
  }

  /** Any other column leaves every center, and the order of its users, as it was. */
  lemma {:induction false} OtherColumnKeepsOrder(centers: seq<CenterSummary>, column: Option<string>, direction: Direction)
    requires column != Some(LastActivityColumn)
    ensures SortCenters(centers, column, direction) == centers
  {
    var r := SortCenters(centers, column, direction);
    forall i | 0 <= i < |centers| ensures r[i] == centers[i] {
      SortByOfSorted(centers[i].users, (u: UserAnalytics) => 0);
    }
  }

  // ---------------------------------------------------------------------------------------
  // What the table shows

  datatype TableView = Loading | NoData | Centers(centers: seq<CenterSummary>)

  /** A spinner while loading without data, a message without centers, else the sorted centers. */
  function View(loading: bool, centers: Option<seq<CenterSummary>>, column: Option<string>, direction: Direction): (v: TableView)
    ensures v.Loading? <==> loading && centers.None?
    ensures v.NoData? <==> (!loading && centers.None?) || (centers.Some? && |centers.value| == 0)
    ensures v.Centers? ==> |v.centers| == |centers.value| > 0
  {
    if loading && centers.None? then Loading
    else if centers.None? || |centers.value| == 0 then NoData
    else Centers(SortCenters(centers.value, column, direction))
  }

  /** The column clicked: the same column flips the direction, another starts ascending. */
  function AfterSortClick(column: Option<string>, direction: Direction, clicked: string): (r: (Option<string>, Direction))
    ensures r.0 == Some(clicked)
    ensures column == Some(clicked) ==> r.1 != direction
    ensures column != Some(clicked) ==> r.1 == Asc
  {
    if column == Some(clicked) then (column, Flip(direction)) else (Some(clicked), Asc)
  }

  /** Clicking a column twice: back where it was for the current column, descending for another. */
  lemma {:induction false} SortClickTwice(column: Option<string>, direction: Direction, clicked: string)
    ensures var (c1, d1) := AfterSortClick(column, direction, clicked);
      AfterSortClick(c1, d1, clicked) == if column == Some(clicked) then (column, direction) else (Some(clicked), Desc)
  {
  }

  /** The sort control's state. */
  class SortControl {
    var sortColumn: Option<string>
    var sortDirection: Direction

    constructor()
      ensures sortColumn == Some(LastActivityColumn) && sortDirection == Asc
    {
      sortColumn := Some(LastActivityColumn);
      sortDirection := Asc;
    }

    /** `handleSort`. */
    method HandleSort(column: string)
      modifies this
      ensures (sortColumn, sortDirection) == AfterSortClick(old(sortColumn), old(sortDirection), column)
      ensures old(sortColumn) == Some(column) ==> sortColumn == old(sortColumn) && sortDirection != old(sortDirection)
      ensures old(sortColumn) != Some(column) ==> sortColumn == Some(column) && sortDirection == Asc
    {
      if sortColumn == Some(column) {
        sortDirection := if sortDirection == Asc then Desc else Asc;
      } else {
        sortColumn := Some(column);
        sortDirection := Asc;
      }
    }
  }
}
