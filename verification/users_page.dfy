/**
 * The users page: the user list with its automatic selection, the last-activity wording, the
 * sort key, and the resizable left panel.
 */
module UsersPage {
  import opened Basics
  import opened Text
  import opened Numbers
  import UserDetailModal

  /** A listed user; `lastSessionTime` is the time of the latest session in milliseconds, if any. */
  datatype UserData = UserData(userId: string, email: string, centerName: Option<string>, lastSessionTime: Option<int>)

  datatype SortKey = RecentSession | CenterName

  const MinPanelWidth := 250
  const MaxPanelWidth := 600
  const InitialPanelWidth := 320

  /**
   * `formatLastActivity`: whole hours since the session, which covers a session in the future
   * under "less than an hour"; whole days from 24 hours on, with a singular form for one day.
   */
  function FormatLastActivity(lastSessionTime: Option<int>, now: int): (text: string)
    ensures lastSessionTime.None? ==> text == "No sessions"
    ensures lastSessionTime.Some? ==> EndsWith(text, " ago")
  {
    if lastSessionTime.None? then "No sessions"
    else
      var hours := (now - lastSessionTime.value) / MsPerHour;
      var days := hours / 24;
      if hours < 1 then "Less than 1 hour ago"
      else if hours < 24 then IntToString(hours) + " hours ago"
      else if days == 1 then "1 day ago"
      else NatToString(days) + " day(s) ago"
  }

  /** The wording in terms of the elapsed milliseconds. */
  lemma {:induction false} FormatLastActivitySpec(t: int, now: int)
    ensures var elapsed := now - t;
      var text := FormatLastActivity(Some(t), now);
      && (elapsed < MsPerHour ==> text == "Less than 1 hour ago")
      && (MsPerHour <= elapsed < MsPerDay ==> text == IntToString(elapsed / MsPerHour) + " hours ago")
      && (MsPerDay <= elapsed < 2 * MsPerDay ==> text == "1 day ago")
      && (elapsed >= 2 * MsPerDay ==> text == NatToString(elapsed / MsPerDay) + " day(s) ago")
  {
    var elapsed := now - t;
    FloorDivBounds(elapsed, MsPerHour);
    FloorDivTwice(elapsed, MsPerHour, 24);
  }

  /**
   * The list's wording and the detail modal's agree on the same session, except during the
   * second day, which the list calls "1 day ago" and the modal "1 day(s) ago".
   */
  lemma {:induction false} AgreesWithModal(s: UserDetailModal.Session, rest: seq<UserDetailModal.Session>, now: int)
    ensures now - s.createdAt < MsPerDay || now - s.createdAt >= 2 * MsPerDay ==>
      FormatLastActivity(Some(s.createdAt), now) == UserDetailModal.LastActive(Some([s] + rest), now)
    ensures MsPerDay <= now - s.createdAt < 2 * MsPerDay ==>
      FormatLastActivity(Some(s.createdAt), now) == "1 day ago" && UserDetailModal.LastActive(Some([s] + rest), now) == "1 day(s) ago"
  {
    var elapsed := now - s.createdAt;
    assert ([s] + rest)[0] == s;
    FormatLastActivitySpec(s.createdAt, now);
    UserDetailModal.LastActiveSpec([s] + rest, now);
    if elapsed < MsPerDay {
    } else if elapsed < 2 * MsPerDay {
      FloorDivBounds(elapsed, MsPerDay);
      assert NatToString(elapsed / MsPerDay) == "1";
    } else {
    }
  }

  /** `handleMouseMove`: the pointer's position held between 250 and 600 pixels. */
  function PanelWidth(x: int): (w: int)
    ensures MinPanelWidth <= w <= MaxPanelWidth
    ensures MinPanelWidth <= x <= MaxPanelWidth ==> w == x
    ensures x < MinPanelWidth ==> w == MinPanelWidth
    ensures x > MaxPanelWidth ==> w == MaxPanelWidth
  {
    Clamp(x, MinPanelWidth, MaxPanelWidth)
  }

  predicate Listed(id: string, users: seq<UserData>) {
    exists i :: 0 <= i < |users| && users[i].userId == id
  }

  /**
   * After a fetch the first user is selected when nothing was selected or the selected user is no
   * longer listed; otherwise the selection is kept as it was.
   */
  function AutoSelect(selected: Option<UserData>, data: seq<UserData>): Option<UserData> {
    if |data| > 0 && (selected.None? || !Listed(selected.value.userId, data)) then Some(data[0])
    else selected
  }

  /**
   * A non-empty list always ends with a listed user selected; a selection still listed is kept,
   * and an empty list leaves the selection alone.
   */
  lemma {:induction false} AutoSelectSpec(selected: Option<UserData>, data: seq<UserData>)
    ensures var r := AutoSelect(selected, data);
      && (|data| > 0 ==> r.Some? && Listed(r.value.userId, data))
      && (selected.Some? && Listed(selected.value.userId, data) ==> r == selected)
      && (data == [] ==> r == selected)
  {
    var r := AutoSelect(selected, data);
    if |data| > 0 && r == Some(data[0]) {
      assert data[0].userId == r.value.userId;
    }
  }

  /** The page's state. */
  class UsersPage {
    var users: seq<UserData>
    var selectedUser: Option<UserData>
    var loading: bool
    var sortBy: SortKey
    var leftPanelWidth: int
    var isDragging: bool

    /** The panel stays between its bounds, and a non-empty list always has a listed user selected. */
    predicate Valid()
      reads this
    {
      && MinPanelWidth <= leftPanelWidth <= MaxPanelWidth
      && (|users| > 0 ==> selectedUser.Some? && Listed(selectedUser.value.userId, users))
    }

    constructor()
      ensures Valid()
      ensures users == [] && selectedUser.None? && loading && sortBy == RecentSession
      ensures leftPanelWidth == InitialPanelWidth && !isDragging
    {
      users, selectedUser, loading, sortBy := [], None, true, RecentSession;
      leftPanelWidth, isDragging := InitialPanelWidth, false;
    }

    /**
     * `fetchUsers` with the backend's answer: on success the list is replaced and the selection
     * adjusted; on failure both stay. Loading ends either way.
     */
    method FetchUsers(response: Result<seq<UserData>, string>)
      requires Valid()
      modifies this
      ensures Valid()
      ensures response.Ok? ==> users == response.value && selectedUser == AutoSelect(old(selectedUser), response.value)
      ensures response.Err? ==> users == old(users) && selectedUser == old(selectedUser)
      ensures !loading
      ensures sortBy == old(sortBy) && leftPanelWidth == old(leftPanelWidth) && isDragging == old(isDragging)
    {
      loading := true;
      if response.Ok? {
        var data := response.value;
        AutoSelectSpec(selectedUser, data);
        users := data;
        selectedUser := AutoSelect(selectedUser, data);
      }
      loading := false;
    }

    /** Choosing a sort key fetches the list again in that order, but only when the key changes. */
    method ChangeSort(key: SortKey, response: Result<seq<UserData>, string>)
      requires Valid()
      modifies this
      ensures Valid()
      ensures sortBy == key
      ensures key == old(sortBy) ==> users == old(users) && selectedUser == old(selectedUser) && loading == old(loading)
      ensures key != old(sortBy) && response.Ok? ==>
        users == response.value && selectedUser == AutoSelect(old(selectedUser), response.value) && !loading
      ensures key != old(sortBy) && response.Err? ==> users == old(users) && selectedUser == old(selectedUser) && !loading
      ensures leftPanelWidth == old(leftPanelWidth) && isDragging == old(isDragging)
    {
      if key != sortBy {
        sortBy := key;
        FetchUsers(response);
      }
    }

    /** Clicking a user in the list selects it. */
    method SelectUser(i: nat)
      requires Valid() && i < |users|
      modifies this
      ensures Valid()
      ensures selectedUser == Some(old(users)[i])
      ensures users == old(users) && loading == old(loading) && sortBy == old(sortBy)
      ensures leftPanelWidth == old(leftPanelWidth) && isDragging == old(isDragging)
    {
      selectedUser := Some(users[i]);
    }

    method MouseDown()
      requires Valid()
      modifies this
      ensures Valid() && isDragging
      ensures users == old(users) && selectedUser == old(selectedUser) && loading == old(loading)
      ensures sortBy == old(sortBy) && leftPanelWidth == old(leftPanelWidth)
    {
      isDragging := true;
    }

    /** Moving the pointer resizes the panel only while dragging. */
    method MouseMove(x: int)
      requires Valid()
      modifies this
      ensures Valid()
      ensures leftPanelWidth == if old(isDragging) then PanelWidth(x) else old(leftPanelWidth)
      ensures users == old(users) && selectedUser == old(selectedUser) && loading == old(loading)
      ensures sortBy == old(sortBy) && isDragging == old(isDragging)
    {
      if isDragging {
        leftPanelWidth := PanelWidth(x);
      }
    }

    method MouseUp()
      requires Valid()
      modifies this
      ensures Valid() && !isDragging
      ensures users == old(users) && selectedUser == old(selectedUser) && loading == old(loading)
      ensures sortBy == old(sortBy) && leftPanelWidth == old(leftPanelWidth)
    {
      isDragging := false;
    }
  }
}
