/**
 * The records the dashboard receives from its backend. Timestamps are milliseconds since the
 * epoch; JSON `null` is `None`; JavaScript `number` counters are integers.
 */
module Types {
  import opened Basics

  /** A notification shown by the toast component; `destructive` is its error styling. */
  datatype Toast = Toast(title: string, description: string, destructive: bool)

  /** A string-valued field is truthy when it is present and not empty. */
  predicate Truthy(s: Option<string>) {
    s.Some? && s.value != ""
  }

  /** One entry of a workflow's `json_to_populate` object: a question and its answer. */
  datatype QAItem = QAItem(
    processedQuestionText: Option<string>,
    questionText: Option<string>,
    answer: Option<string>,
    evidence: Option<string>,
    kind: string)

  /**
   * The `json_to_populate` value of a session: falsy (`null`, `undefined`), a JSON string the
   * backend sent unparsed, another value that is not an object (a number, a boolean), or an
   * object given by its entries in `Object.entries` order.
   */
  datatype PopulateJson = Falsy | JsonString(text: string) | NotAnObject | Entries(entries: seq<(string, QAItem)>)

  /** `!!json_to_populate`: the empty string is falsy like `null`. */
  predicate PopulateTruthy(json: PopulateJson) {
    !json.Falsy? && json != JsonString("")
  }

  /** `Object.entries(json_to_populate)` behind a `typeof json_to_populate === 'object'` test. */
  function ObjectEntries(json: PopulateJson): (r: seq<(string, QAItem)>)
    ensures json.Entries? ==> r == json.entries
    ensures !json.Entries? ==> r == []
  {
    if json.Entries? then json.entries else []
  }

  /** One session row: a session together with one of its workflows. */
  datatype SessionDetail = SessionDetail(
    patientName: string,
    createdAt: int,
    sessionType: string,
    sessionStatus: string,
    workflowStatus: string,
    sessionId: string,
    workflowId: string,
    workflowName: string,
    patientId: string,
    jsonToPopulate: PopulateJson,
    audioLink: Option<string>)

  /** Analytics for one clinician account. */
  datatype UserAnalytics = UserAnalytics(
    userId: string,
    email: string,
    centerName: Option<string>,
    lastSessionTime: Option<int>,
    totalSessions: int,
    userType: string,
    currExtensionVersion: Option<string>,
    followedUpSince: Option<int>,
    ignoreUser: bool,
    notes: Option<string>)

  /** Analytics for one center and the users that belong to it. */
  datatype CenterSummary = CenterSummary(
    centerName: string,
    totalUsers: int,
    activeUsersCount: int,
    inactiveUsersCount: int,
    averageSessionsPerUser: real,
    users: seq<UserAnalytics>)

  datatype InactiveUsersOverview = InactiveUsersOverview(
    totalInactiveUsers: int,
    mostInactiveCenterName: Option<string>,
    averageInactivityDays: real)

  /** The per-center analytics response; the threshold is a whole number of days. */
  datatype PerCenterAnalytics = PerCenterAnalytics(
    inactiveUsersOverview: InactiveUsersOverview,
    centersData: seq<CenterSummary>,
    inactiveThresholdDays: int)
}
