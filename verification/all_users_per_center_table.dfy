/**
 * The per-center activity table: the center dropdown and its filter, and each user's row with
 * the shared inactivity rule.
 */
module AllUsersPerCenterTable {
  import opened Basics
  import opened Types
  import opened Text
  import opened Collections
  import opened Sorting
  import AllUsersTable

  const AllCenters := "All Centers"

  /** The selection the table starts with. */
  const InitialSelection := AllCenters

  /** The centers shown: all of them for `All Centers`, else those whose name is the selection. */
  function FilteredCenters(centers: seq<CenterSummary>, selected: string): (r: seq<CenterSummary>)
    ensures |r| <= |centers|
    ensures selected == AllCenters ==> r == centers
    ensures multiset(r) <= multiset(centers)
    ensures selected != AllCenters ==> forall i :: 0 <= i < |r| ==> r[i].centerName == selected
  {
    if selected == AllCenters then centers else Filter(centers, (c: CenterSummary) => c.centerName == selected)
  }

  /**
   * `All Centers` shows every center as given; any other selection shows exactly the centers of
   * that name, each as often as it is listed, in the given order.
   */
  lemma {:induction false} FilteredCentersSpec(centers: seq<CenterSummary>, selected: string)
    ensures selected == AllCenters ==> FilteredCenters(centers, selected) == centers
    ensures selected != AllCenters ==>
      var r := FilteredCenters(centers, selected);
      && (forall i :: 0 <= i < |r| ==> r[i].centerName == selected)
      && (forall c :: multiset(r)[c] == if c.centerName == selected then multiset(centers)[c] else 0)
  {
    if selected != AllCenters {
      var p := (c: CenterSummary) => c.centerName == selected;
      forall c ensures multiset(Filter(centers, p))[c] == if c.centerName == selected then multiset(centers)[c] else 0 {
        FilterCount(centers, p, c);
      }
    }
  }

  /**
   * The filter keeps the given order: the centers shown for a list split in two are those of the
   * first part, then those of the second, and a single center is shown exactly when it matches.
   */
  lemma {:induction false} FilteredCentersOrder(a: seq<CenterSummary>, b: seq<CenterSummary>, c: CenterSummary, selected: string)
    ensures FilteredCenters(a + b, selected) == FilteredCenters(a, selected) + FilteredCenters(b, selected)
    ensures FilteredCenters([c], selected) == if selected == AllCenters || c.centerName == selected then [c] else []
  {
    if selected != AllCenters {
      var p := (c: CenterSummary) => c.centerName == selected;
      FilterConcat(a, b, p);
      FilterSingleton(c, p);
    }
  }

  function CenterNames(centers: seq<CenterSummary>): (r: seq<string>)
    ensures |r| == |centers| && forall i :: 0 <= i < |r| ==> r[i] == centers[i].centerName
  {
    seq(|centers|, i requires 0 <= i < |centers| => centers[i].centerName)
  }

  /** `["All Centers", ...names].sort()`: the option sorts among the names; repeated names stay. */
  function DropdownNames(centers: seq<CenterSummary>): (r: seq<string>)
    ensures |r| == |centers| + 1
    ensures multiset(r) == multiset{AllCenters} + multiset(CenterNames(centers))
  {
    SortStrings([AllCenters] + CenterNames(centers))
  }

  /**
   * The dropdown holds `All Centers` and every center name, as many times as the centers list
   * it, in the default string order.
   */
  lemma {:induction false} DropdownNamesSpec(centers: seq<CenterSummary>)
    ensures var r := DropdownNames(centers);
      && |r| == |centers| + 1
      && multiset(r) == multiset{AllCenters} + multiset(CenterNames(centers))
      && AllCenters in r
      && (forall i :: 0 <= i < |centers| ==> centers[i].centerName in r)
      && (forall i, j :: 0 <= i < j < |r| ==> StrLe(r[i], r[j]))
  {
    var names := [AllCenters] + CenterNames(centers);
    var r := DropdownNames(centers);
    SortStringsSorted(names);
    assert AllCenters in multiset(r) by { assert names[0] == AllCenters; }
    forall i | 0 <= i < |centers| ensures centers[i].centerName in r {
      assert names[i + 1] == centers[i].centerName;
      assert centers[i].centerName in multiset(names);
    }
  }

  datatype CenterUserRow = CenterUserRow(email: string, lastSeen: string, totalSessions: int, inactive: bool)

  /** A user's row: the same inactivity and last-seen rule as the all-users table. */
  function Row(user: UserAnalytics, now: int, thresholdDays: int): (r: CenterUserRow)
    ensures r.lastSeen == AllUsersTable.Row(user, now, thresholdDays).lastSeen
    ensures r.inactive == AllUsersTable.Row(user, now, thresholdDays).inactive
    ensures r.lastSeen == "Never" ==> r.inactive
  {
    CenterUserRow(user.email, AllUsersTable.LastSeenText(user, now), user.totalSessions,
                  AllUsersTable.IsInactive(user, now, thresholdDays))
  }

  datatype TableView = Loading | NoData | Centers(centers: seq<CenterSummary>)

  /** A spinner while loading without data, a message without centers, else the filtered centers. */
  function View(loading: bool, centers: Option<seq<CenterSummary>>, selected: string): (v: TableView)
    ensures v.Loading? <==> loading && centers.None?
    ensures v.NoData? <==> (!loading && centers.None?) || (centers.Some? && |centers.value| == 0)
    ensures v.Centers? && selected == AllCenters ==> v.centers == centers.value
    ensures v.Centers? ==> |v.centers| <= |centers.value|
  {
    if loading && centers.None? then Loading
    else if centers.None? || |centers.value| == 0 then NoData
    else Centers(FilteredCenters(centers.value, selected))
  }
}
