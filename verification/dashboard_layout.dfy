/**
 * The dashboard page: the day-over-day changes shown on the trend chart, the thirty-day trend
 * series, the date label, and which of the loading / empty / full views is shown.
 */
module DashboardLayout {
  import opened Basics
  import opened Numbers
  import UserActivityTable

  /** One day of the daily-active-users series, most recent first as the backend sends it. */
  datatype DayCount = DayCount(date: string, uniqueUsers: int, userEmails: seq<string>, uniqueSessions: int)

  datatype TodayCount = TodayCount(uniqueUsers: int, uniqueSessions: int, date: string)

  datatype Metrics = Metrics(
    usersToday: Option<TodayCount>,
    dau: seq<DayCount>,
    lastUseCount: nat,
    sessionsTodayByUser: seq<UserActivityTable.ActivityEntry>)

  datatype Direction = Up | Down

  const ComparisonPeriod := "yesterday"

  datatype Change = Change(value: int, percentage: int, direction: Direction, comparisonPeriod: string)

  /**
   * The change from `yesterday` to `today`: the difference, the percentage rounded as
   * `Math.round` does (to the nearest integer, halves upwards) and 0 when yesterday's count is 0,
   * and the direction, up when today is not below yesterday.
   */
  function ChangeOf(today: int, yesterday: int): (c: Change)
    ensures c.value == today - yesterday
    ensures c.direction == Up <==> today >= yesterday
    ensures yesterday == 0 ==> c.percentage == 0
    ensures yesterday > 0 ==>
      yesterday * (2 * c.percentage - 1) <= 200 * (today - yesterday) < yesterday * (2 * c.percentage + 1)
    ensures c.comparisonPeriod == ComparisonPeriod
  {
    Change(
      today - yesterday,
      if yesterday != 0 then RoundQuotient(100 * (today - yesterday), yesterday) else 0,
      if today >= yesterday then Up else Down,
      ComparisonPeriod)
  }

  /**
   * With a positive count yesterday, an upward change never shows a negative percentage and a
   * positive percentage is always upward (a small fall can round to 0 and still point down).
   */
  lemma {:induction false} ChangeSignAgrees(today: int, yesterday: int)
    requires yesterday > 0
    ensures var c := ChangeOf(today, yesterday);
      && (c.direction == Up ==> c.percentage >= 0)
      && (c.percentage > 0 ==> c.direction == Up)
  {
    var c := ChangeOf(today, yesterday);
    var r := c.percentage;
    if today >= yesterday && r < 0 {
      MulMonotone(yesterday, 2 * r + 1, -1);
    }
    if r > 0 && today < yesterday {
      MulMonotone(yesterday, 1, 2 * r - 1);
    }
  }

  /** `usersChange`: only when today's counts are present and the series is not empty. */
  function UsersChange(m: Metrics): (r: Option<Change>)
    ensures r.Some? <==> m.usersToday.Some? && |m.dau| > 0
    ensures r.Some? ==> r.value.value == m.usersToday.value.uniqueUsers - m.dau[0].uniqueUsers
  {
    if m.usersToday.Some? && |m.dau| > 0 then Some(ChangeOf(m.usersToday.value.uniqueUsers, m.dau[0].uniqueUsers))
    else None
  }

  /** `sessionsChange`: the same comparison for session counts. */
  function SessionsChange(m: Metrics): (r: Option<Change>)
    ensures r.Some? <==> m.usersToday.Some? && |m.dau| > 0
    ensures r.Some? ==> r.value.value == m.usersToday.value.uniqueSessions - m.dau[0].uniqueSessions
  {
    if m.usersToday.Some? && |m.dau| > 0 then Some(ChangeOf(m.usersToday.value.uniqueSessions, m.dau[0].uniqueSessions))
    else None
  }

  /** Both changes exist exactly when today's counts and at least one past day exist, and compare with the most recent day. */
  lemma {:induction false} ChangesSpec(m: Metrics)
    ensures UsersChange(m).Some? <==> m.usersToday.Some? && |m.dau| > 0
    ensures SessionsChange(m).Some? <==> UsersChange(m).Some?
    ensures UsersChange(m).Some? ==>
      && UsersChange(m).value.value == m.usersToday.value.uniqueUsers - m.dau[0].uniqueUsers
      && SessionsChange(m).value.value == m.usersToday.value.uniqueSessions - m.dau[0].uniqueSessions
      && (UsersChange(m).value.direction == Up <==> m.usersToday.value.uniqueUsers >= m.dau[0].uniqueUsers)
      && (SessionsChange(m).value.direction == Up <==> m.usersToday.value.uniqueSessions >= m.dau[0].uniqueSessions)
  {
  }

  /** `s.reverse()` on a copy. */
  function Reversed<T>(s: seq<T>): (r: seq<T>)
    ensures |r| == |s|
    ensures forall i :: 0 <= i < |s| ==> r[i] == s[|s| - 1 - i]
  {
    if s == [] then [] else [s[|s| - 1]] + Reversed(s[..|s| - 1])
  }

  datatype TrendPoint = TrendPoint(date: string, value: int, emails: seq<string>)

  function Point(d: DayCount): TrendPoint {
    TrendPoint(d.date, d.uniqueUsers, d.userEmails)
  }

  function Points(days: seq<DayCount>): (r: seq<TrendPoint>)
    ensures |r| == |days|
    ensures forall i :: 0 <= i < |r| ==> r[i] == Point(days[i])
  {
    seq(|days|, i requires 0 <= i < |days| => Point(days[i]))
  }

  const TrendDays := 30

  /** The chart's series: the 30 most recent days, oldest first. */
  function Trend(dau: seq<DayCount>): (t: seq<TrendPoint>)
    ensures |t| == Min(TrendDays, |dau|)
  {
    SliceTake(dau, TrendDays);
    Points(Reversed(Slice(dau, 0, TrendDays)))
  }

  /**
   * The series has one point per day for up to 30 days, in chronological order: point `i` is the
   * day `n - 1 - i` positions into the series, so the last point is the most recent day.
   */
  lemma {:induction false} TrendSpec(dau: seq<DayCount>)
    ensures var t := Trend(dau);
      && |t| == Min(TrendDays, |dau|)
      && (forall i :: 0 <= i < |t| ==> t[i] == Point(dau[|t| - 1 - i]))
      && (|dau| > 0 ==> t[|t| - 1] == Point(dau[0]))
  {
    SliceTake(dau, TrendDays);
  }

  /**
   * `formatDateLabel`: no date means today; otherwise the date is compared with today's and
   * yesterday's Pacific dates (given, as the clock is an input here), and any other date is
   * shown in the locale's short form (a given formatting).
   */
  function DateLabel(date: string, todayDate: string, yesterdayDate: string, readable: string -> string): (text: string)
    ensures date == "" || date == todayDate ==> text == "TODAY"
    ensures date != "" && date != todayDate && date == yesterdayDate ==> text == "YESTERDAY"
  {
    if date == "" then "TODAY"
    else if date == todayDate then "TODAY"
    else if date == yesterdayDate then "YESTERDAY"
    else readable(date)
  }

  const ActivityRows := 10
  const SessionDataLabel := "TODAY"

  datatype LayoutView =
    | Loading
    | NoData
    | Dashboard(
        usersToday: int, sessionsToday: int,
        usersChange: Option<Change>, sessionsChange: Option<Change>,
        trend: seq<TrendPoint>,
        activity: seq<UserActivityTable.ActivityEntry>, activityRows: int, activityLabel: string)

  /** The page shown: the loading page only while loading with nothing to show yet, then the data or a notice. */
  function View(metrics: Option<Metrics>, loading: bool): (v: LayoutView)
    ensures v.Loading? <==> loading && metrics.None?
    ensures v.NoData? <==> !loading && metrics.None?
    ensures v.Dashboard? ==> metrics.Some? && v.activityRows == ActivityRows && v.activityLabel == SessionDataLabel
  {
    if loading && metrics.None? then Loading
    else if metrics.None? then NoData
    else
      var m := metrics.value;
      Dashboard(
        if m.usersToday.Some? then m.usersToday.value.uniqueUsers else 0,
        if m.usersToday.Some? then m.usersToday.value.uniqueSessions else 0,
        UsersChange(m), SessionsChange(m), Trend(m.dau),
        m.sessionsTodayByUser, ActivityRows, SessionDataLabel)
  }
}
