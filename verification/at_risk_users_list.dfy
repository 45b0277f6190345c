/**
 * The at-risk users list: whole hours and days since each user's last use, the list ordered
 * from the longest inactive, the first five shown, and the risk tier of each. `now` is the clock
 * reading in milliseconds and `lastUse` the parsed last-use time.
 */
module AtRiskUsersList {
  import opened Numbers
  import opened Sorting

  datatype AtRiskUser = AtRiskUser(email: string, id: string, lastUse: int)

  datatype RankedUser = RankedUser(user: AtRiskUser, daysSince: int, hoursSince: int)

  /** `hoursSince = floor(elapsed / hour)`, `daysSince = floor(hoursSince / 24)`. */
  function Annotate(u: AtRiskUser, now: int): RankedUser {
    var hours := (now - u.lastUse) / MsPerHour;
    RankedUser(u, hours / 24, hours)
  }

  /** The whole days are the whole days elapsed, and the whole hours the whole hours elapsed. */
  lemma {:induction false} AnnotateSpec(u: AtRiskUser, now: int)
    ensures var r := Annotate(u, now);
      && r.daysSince == (now - u.lastUse) / MsPerDay
      && r.hoursSince * MsPerHour <= now - u.lastUse < (r.hoursSince + 1) * MsPerHour
      && r.user == u
  {
    FloorDivTwice(now - u.lastUse, MsPerHour, 24);
    FloorDivBounds(now - u.lastUse, MsPerHour);
  }

  function Annotated(users: seq<AtRiskUser>, now: int): (r: seq<RankedUser>)
    ensures |r| == |users|
  {
    seq(|users|, i requires 0 <= i < |users| => Annotate(users[i], now))
  }

  function HoursKey(r: RankedUser): int {
    -r.hoursSince
  }

  /** `.sort((a, b) => b.hoursSince - a.hoursSince)`: longest inactive first, ties in input order. */
  function AtRisk(users: seq<AtRiskUser>, now: int): (r: seq<RankedUser>)
    ensures |r| == |users|
    ensures multiset(r) == multiset(Annotated(users, now))
  {
    SortBy(Annotated(users, now), HoursKey)
  }

  /** Every user appears once, annotated, none dropped, the longest inactive first. */
  lemma {:induction false} AtRiskSpec(users: seq<AtRiskUser>, now: int)
    ensures var r := AtRisk(users, now);
      && |r| == |users|
      && multiset(r) == multiset(Annotated(users, now))
      && (forall i :: 0 <= i < |r| ==> r[i] == Annotate(r[i].user, now))
      && (forall i, j :: 0 <= i < j < |r| ==> r[i].hoursSince >= r[j].hoursSince)
  {
    var a := Annotated(users, now);
    var r := AtRisk(users, now);
    SortBySorted(a, HoursKey);
    assert forall i, j :: 0 <= i < j < |r| ==> HoursKey(r[i]) <= HoursKey(r[j]);
    forall i | 0 <= i < |r| ensures r[i] == Annotate(r[i].user, now) {
      assert r[i] in multiset(a);
    }
  }

  const ShownWithoutAll := 5

  /** `showAll` starts false and nothing sets it. */
  const ShowAll := false

  /** `showAll ? atRiskUsers : atRiskUsers.slice(0, 5)`. */
  function Displayed(users: seq<AtRiskUser>, now: int, showAll: bool): (r: seq<RankedUser>)
    ensures showAll ==> |r| == |users|
    ensures !showAll ==> |r| == Min(ShownWithoutAll, |users|)
    ensures r == AtRisk(users, now)[..|r|]
  {
    var all := AtRisk(users, now);
    SliceTake(all, ShownWithoutAll);
    if showAll then all else Slice(all, 0, ShownWithoutAll)
  }

  /**
   * The list shows at most five users, and they are the longest inactive: none left out has
   * more hours than any shown.
   */
  lemma {:induction false} DisplayedSpec(users: seq<AtRiskUser>, now: int)
    ensures var all := AtRisk(users, now);
      var shown := Displayed(users, now, ShowAll);
      && |shown| == Min(ShownWithoutAll, |users|)
      && shown == all[..|shown|]
      && (forall i, j :: 0 <= i < |shown| <= j < |all| ==> shown[i].hoursSince >= all[j].hoursSince)
  {
    var all := AtRisk(users, now);
    AtRiskSpec(users, now);
    SliceTake(all, ShownWithoutAll);
  }

  datatype Risk = Medium | High | Critical

  /** `getRiskLevel`: 72 hours or more is critical, 48 or more high, anything less medium. */
  function RiskLevel(hours: int): (r: Risk)
    ensures r == Critical <==> hours >= 72
    ensures r == High <==> 48 <= hours < 72
    ensures r == Medium <==> hours < 48
  {
    if hours >= 72 then Critical else if hours >= 48 then High else Medium
  }

  function Severity(r: Risk): nat {
    match r
    case Medium => 0
    case High => 1
    case Critical => 2
  }

  /** More hours never means a lower tier. */
  lemma {:induction false} RiskMonotone(h1: int, h2: int)
    requires h1 <= h2
    ensures Severity(RiskLevel(h1)) <= Severity(RiskLevel(h2))
  {
  }

  /** Down the list the tiers never rise: criticals first, then highs, then mediums. */
  lemma {:induction false} TiersDescend(users: seq<AtRiskUser>, now: int)
    ensures var shown := Displayed(users, now, ShowAll);
      forall i, j :: 0 <= i < j < |shown| ==> Severity(RiskLevel(shown[i].hoursSince)) >= Severity(RiskLevel(shown[j].hoursSince))
  {
    var shown := Displayed(users, now, ShowAll);
    DisplayedSpec(users, now);
    AtRiskSpec(users, now);
    forall i, j | 0 <= i < j < |shown|
      ensures Severity(RiskLevel(shown[i].hoursSince)) >= Severity(RiskLevel(shown[j].hoursSince))
    {
      RiskMonotone(shown[j].hoursSince, shown[i].hoursSince);
    }
  }

  datatype ListView = AllActive | Users(shown: seq<RankedUser>)

  /** The all-active message exactly when there are no users. */
  function View(users: seq<AtRiskUser>, now: int): (v: ListView)
    ensures v.AllActive? <==> users == []
  {
    if |AtRisk(users, now)| == 0 then AllActive else Users(Displayed(users, now, ShowAll))
  }
}
