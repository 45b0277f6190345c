/**
 * The REST client of services/api.ts. `fetch` is an input: the outcome of the i-th attempt is
 * `fetch(i)`, and the backoff sleeps are reported as the list of delays the client waits.
 */
module Api {
  import opened Basics
  import opened Text

  /** The base URL used when `NEXT_PUBLIC_API_URL` is not set. */
  const DefaultBaseUrl: string := "http://165.227.120.106:5001/dashboard"

  /** `process.env.NEXT_PUBLIC_API_URL || DefaultBaseUrl`: an empty variable counts as unset. */
  function BaseUrl(env: Option<string>): (r: string)
    ensures env.Some? && env.value != "" ==> r == env.value
    ensures env.None? || env.value == "" ==> r == DefaultBaseUrl
  {
    if env.Some? && env.value != "" then env.value else DefaultBaseUrl
  }

  /**
   * What one `fetch` call produced: an HTTP response with a JSON body, a response whose body
   * `response.json()` rejects (with the parser's message), or a rejection (network failure).
   */
  datatype FetchOutcome =
    | Reply(status: int, statusText: string, body: string)
    | Unparseable(status: int, statusText: string, parseError: string)
    | NetworkError(message: string)
  {
    /** `response.ok`: a response with a 2xx status. */
    predicate Ok() {
      !NetworkError? && 200 <= status <= 299
    }

    /** The request resolves with a body: `response.ok` and the body parses. */
    predicate Succeeded() {
      Reply? && Ok()
    }
  }

  /** How an awaited request settles: a JSON body, `undefined`, or a thrown error's message. */
  datatype RequestResult = Resolved(body: string) | Undefined | Thrown(message: string)

  /** The error a failed attempt of `apiRequest` raises. */
  function FailureMessage(o: FetchOutcome): string {
    match o
    case Reply(status, statusText, _) => "API request failed: " + IntToString(status) + " " + statusText
    case Unparseable(status, statusText, _) => "API request failed: " + IntToString(status) + " " + statusText
    case NetworkError(m) => m
  }

  /**
   * How `return response.json()` settles for an OK response: its body, or the parser's rejection.
   * The promise is returned rather than awaited, so that rejection is not caught by the retry loop.
   */
  function BodyResult(o: FetchOutcome): (r: RequestResult)
    requires o.Ok()
    ensures r.Resolved? <==> o.Succeeded()
  {
    if o.Reply? then Resolved(o.body) else Thrown(o.parseError)
  }

  const DefaultRetries: int := 3

  /** `Math.pow(2, i)` for a whole exponent. */
  function Pow2(i: nat): (r: nat)
    ensures r >= 1
  {
    if i == 0 then 1 else 2 * Pow2(i - 1)
  }

  /** The delay after failed attempt `i`, in milliseconds: `Math.pow(2, i) * 1000`. */
  function Backoff(i: nat): nat {
    Pow2(i) * 1000
  }

  /** The backoff starts at one second and doubles after every failed attempt. */
  lemma {:induction false} BackoffDoubles(i: nat)
    ensures Backoff(0) == 1000
    ensures Backoff(i + 1) == 2 * Backoff(i)
    ensures Backoff(i) >= 1000
  {
  }

  /** The delays after the first `n` failed attempts. */
  function Waits(n: nat): (w: seq<nat>)
    ensures |w| == n
    ensures forall k :: 0 <= k < n ==> w[k] == Backoff(k)
  {
    if n == 0 then [] else Waits(n - 1) + [Backoff(n - 1)]
  }

  /** A whole `apiRequest` call: how it settled, how many attempts it made and the delays it waited. */
  datatype Run = Run(result: RequestResult, attempts: nat, waits: seq<nat>)

  /** `apiRequest` from attempt `i` on. */
  function RunFrom(i: nat, retries: int, fetch: nat -> FetchOutcome): Run
    decreases retries - i
  {
    if i >= retries then Run(Undefined, i, [])
    else if fetch(i).Ok() then Run(BodyResult(fetch(i)), i + 1, [])
    else if i == retries - 1 then Run(Thrown(FailureMessage(fetch(i))), i + 1, [])
    else
      var rest := RunFrom(i + 1, retries, fetch);
      Run(rest.result, rest.attempts, [Backoff(i)] + rest.waits)
  }

  /**
   * `apiRequest(endpoint, retries)`: GET `base + endpoint` up to `retries` times, return the first
   * successful body, rethrow the last failure, wait `2^i * 1000` ms after every failure but the last.
   */
  method ApiRequest(base: string, endpoint: string, retries: int, fetch: nat -> FetchOutcome)
    returns (url: string, run: Run)
    ensures url == base + endpoint
    ensures run == RunFrom(0, retries, fetch)
  {
    url := base + endpoint;
    var waits: seq<nat> := [];
    var i: nat := 0;
    while i < retries
      invariant i == 0 || i < retries
      invariant forall k :: 0 <= k < i ==> !fetch(k).Ok()
      invariant waits == Waits(i)
    {
      var outcome := fetch(i);
      if outcome.Ok() {
        run := Run(BodyResult(outcome), i + 1, waits);
        RunFirstSuccess(retries, fetch, i);
        return;
      }
      if i == retries - 1 {
        run := Run(Thrown(FailureMessage(outcome)), i + 1, waits);
        RunAllFail(retries, fetch);
        return;
      }
      waits := waits + [Backoff(i)];
      i := i + 1;
    }
    run := Run(Undefined, 0, []);
  }

  /** Skipping `i` failed attempts: the rest of the run, after the first `i` delays. */
  lemma {:induction false} RunFromSkip(i: nat, retries: int, fetch: nat -> FetchOutcome)
    requires i == 0 || i < retries
    requires forall k :: 0 <= k < i ==> !fetch(k).Ok()
    ensures RunFrom(0, retries, fetch)
      == Run(RunFrom(i, retries, fetch).result, RunFrom(i, retries, fetch).attempts,
             Waits(i) + RunFrom(i, retries, fetch).waits)
  {
    if i > 0 {
      RunFromSkip(i - 1, retries, fetch);
      assert Waits(i - 1) + ([Backoff(i - 1)] + RunFrom(i, retries, fetch).waits)
        == Waits(i) + RunFrom(i, retries, fetch).waits;
    }
  }

  /**
   * The first OK response decides the result, with its body or, when the body does not parse,
   * the parser's rejection, which is not retried; every earlier failure was waited out.
   */
  lemma {:induction false} RunFirstSuccess(retries: int, fetch: nat -> FetchOutcome, j: nat)
    requires j < retries && fetch(j).Ok()
    requires forall k :: 0 <= k < j ==> !fetch(k).Ok()
    ensures RunFrom(0, retries, fetch) == Run(BodyResult(fetch(j)), j + 1, Waits(j))
    ensures fetch(j).Reply? ==> RunFrom(0, retries, fetch).result == Resolved(fetch(j).body)
    ensures fetch(j).Unparseable? ==> RunFrom(0, retries, fetch).result == Thrown(fetch(j).parseError)
  {
    RunFromSkip(j, retries, fetch);
  }

  /** When every attempt fails, exactly `retries` attempts are made and the last error is rethrown. */
  lemma {:induction false} RunAllFail(retries: int, fetch: nat -> FetchOutcome)
    requires retries >= 1
    requires forall k :: 0 <= k < retries ==> !fetch(k).Ok()
    ensures RunFrom(0, retries, fetch)
      == Run(Thrown(FailureMessage(fetch(retries - 1))), retries, Waits(retries - 1))
  {
    RunFromSkip(retries - 1, retries, fetch);
  }

  /** A call never makes more than `retries` attempts and waits once per attempt but the last. */
  lemma {:induction false} RunBounds(i: nat, retries: int, fetch: nat -> FetchOutcome)
    requires i == 0 || i < retries
    ensures var r := RunFrom(i, retries, fetch);
      && (r.result.Undefined? <==> retries <= 0)
      && (retries <= 0 ==> r.attempts == 0)
      && (retries > 0 ==> i < r.attempts <= retries && |r.waits| == r.attempts - 1 - i)
    decreases retries - i
  {
    if i < retries && !fetch(i).Ok() && i != retries - 1 {
      RunBounds(i + 1, retries, fetch);
    }
  }

  /**
   * No status is exempt from retrying: a 401, 403 or 500 reply on the first attempt is followed
   * by a one-second wait and the rest of the attempts, exactly like a network failure.
   */
  lemma {:induction false} FailedReplyRetried(retries: int, fetch: nat -> FetchOutcome)
    requires retries >= 2
    requires !fetch(0).NetworkError? && !(200 <= fetch(0).status <= 299)
    ensures RunFrom(0, retries, fetch)
      == Run(RunFrom(1, retries, fetch).result, RunFrom(1, retries, fetch).attempts,
             [1000] + RunFrom(1, retries, fetch).waits)
  {
  }

  /** With the default three retries, a request that keeps failing waits 1000 ms and then 2000 ms. */
  lemma {:induction false} DefaultDelays(fetch: nat -> FetchOutcome)
    requires forall k :: 0 <= k < DefaultRetries ==> !fetch(k).Ok()
    ensures RunFrom(0, DefaultRetries, fetch).waits == [1000, 2000]
    ensures RunFrom(0, DefaultRetries, fetch).result == Thrown(FailureMessage(fetch(2)))
  {
    RunAllFail(DefaultRetries, fetch);
    assert Waits(2) == [Backoff(0), Backoff(1)];
  }

  // ---------------------------------------------------------------------------------------
  // Endpoints

  datatype SortBy = RecentSession | CenterName

  /** The GET operations of the `api` object, each with its arguments. */
  datatype Getter =
    | UsersToday
    | LastUse
    | Dau
    | WeeklyUsers
    | SessionsTodayByUser
    | SessionsToday
    | AllSessions
    | UserSessions(userId: string)
    | AllUsers
    | UsersWithSessionAndCenter(sortBy: SortBy)
    | HealthCheck

  function SortByText(k: SortBy): string {
    match k
    case RecentSession => "recent_session"
    case CenterName => "center_name"
  }

  function Path(g: Getter): string {
    match g
    case UsersToday => "/users-today"
    case LastUse => "/last-use"
    case Dau => "/dau"
    case WeeklyUsers => "/weekly-users"
    case SessionsTodayByUser => "/sessions-today-by-user"
    case SessionsToday => "/sessions-today"
    case AllSessions => "/all-sessions"
    case UserSessions(id) => "/user-sessions/" + id
    case AllUsers => "/all-users"
    case UsersWithSessionAndCenter(k) => "/users-with-centers?sort_by=" + SortByText(k)
    case HealthCheck => "/health"
  }

  /** The URL a getter requests: the base URL followed by its path. */
  function GetterUrl(base: string, g: Getter): (url: string)
    ensures |base| < |url| && url[..|base|] == base && url[|base|] == '/'
  {
    base + Path(g)
  }

  /** A user-sessions URL names the user it was built for: the id is what follows the fixed prefix. */
  lemma {:induction false} UserSessionsUrlId(base: string, id: string)
    ensures var url := GetterUrl(base, UserSessions(id));
      |url| == |base| + 15 + |id| && url[|base| + 15..] == id
  {
    assert GetterUrl(base, UserSessions(id)) == base + "/user-sessions/" + id;
  }

  /** The root of the backend: the base URL with its first `/dashboard` removed. */
  function RootUrl(base: string): (r: string)
    ensures !Contains(base, "/dashboard") ==> r == base
  {
    ReplaceFirst(base, "/dashboard", "")
  }

  /** `retryPopulate`'s URL. */
  function RetryUrl(base: string): string {
    RootUrl(base) + "/retry"
  }

  /** `getWorkflowStatus`'s URL. */
  function WorkflowStatusUrl(base: string, sessionId: string): string {
    RootUrl(base) + "/clinical-sessions/" + sessionId + "/all-status"
  }

  lemma {:induction false} ReplaceFirstAt(s: string, pattern: string, replacement: string, i: nat)
    requires i + |pattern| <= |s| && s[i..i + |pattern|] == pattern
    requires forall j :: 0 <= j < i ==> !StartsWith(s[j..], pattern)
    ensures ReplaceFirst(s, pattern, replacement) == s[..i] + replacement + s[i + |pattern|..]
  {
    ContainsAt(s, pattern, i);
    var k := IndexOf(s, pattern).value;
    assert s[i..][..|pattern|] == pattern;
    assert StartsWith(s[i..], pattern);
    assert s[k..][..|pattern|] == pattern;
    assert StartsWith(s[k..], pattern);
    assert k == i;
  }

  /**
   * For a base URL of the form `host + "/dashboard"` in which `/dashboard` does not occur earlier,
   * the retry and status endpoints live directly under `host`.
   */
  lemma {:induction false} DashboardBaseUrls(host: string, sessionId: string)
    requires forall j :: 0 <= j < |host| ==> !StartsWith((host + "/dashboard")[j..], "/dashboard")
    ensures RootUrl(host + "/dashboard") == host
    ensures RetryUrl(host + "/dashboard") == host + "/retry"
    ensures WorkflowStatusUrl(host + "/dashboard", sessionId)
      == host + "/clinical-sessions/" + sessionId + "/all-status"
  {
    var s := host + "/dashboard";
    ReplaceFirstAt(s, "/dashboard", "", |host|);
    assert s[..|host|] == host && s[|host| + 10..] == [];
  }

  /** How a single (non-retried) request settles: `retryPopulate` and `getWorkflowStatus`. */
  function SingleRequest(failurePrefix: string, o: FetchOutcome): (r: RequestResult)
    ensures r.Resolved? <==> o.Succeeded()
    ensures o.Succeeded() ==> r == Resolved(o.body)
    ensures o.Unparseable? && o.Ok() ==> r == Thrown(o.parseError)
    ensures o.NetworkError? ==> r == Thrown(o.message)
    ensures !o.NetworkError? && !o.Ok() ==> r.Thrown? && StartsWith(r.message, failurePrefix + ": ")
  {
    if o.NetworkError? then Thrown(o.message)
    else if o.Ok() then BodyResult(o)
    else Thrown(failurePrefix + ": " + IntToString(o.status) + " " + o.statusText)
  }

  /** The JSON body `retryPopulate` posts. */
  datatype RetryRequest = RetryRequest(sessionId: string, workflowId: string, userId: string)

  /** `retryPopulate(sessionId, workflowId, userId)`: one POST to the retry URL. */
  function RetryPopulate(base: string, sessionId: string, workflowId: string, userId: string, o: FetchOutcome)
    : (r: (string, RetryRequest, RequestResult))
    ensures r.0 == RetryUrl(base)
    ensures r.1 == RetryRequest(sessionId, workflowId, userId)
    ensures r.2.Resolved? <==> o.Succeeded()
    ensures o.Unparseable? && o.Ok() ==> r.2 == Thrown(o.parseError)
  {
    (RetryUrl(base), RetryRequest(sessionId, workflowId, userId), SingleRequest("Retry populate failed", o))
  }

  /** `getWorkflowStatus(sessionId)`: one GET of the status URL. */
  function GetWorkflowStatus(base: string, sessionId: string, o: FetchOutcome): (r: (string, RequestResult))
    ensures r.0 == WorkflowStatusUrl(base, sessionId)
    ensures r.1.Resolved? <==> o.Succeeded()
    ensures o.Unparseable? && o.Ok() ==> r.1 == Thrown(o.parseError)
  {
    (WorkflowStatusUrl(base, sessionId), SingleRequest("Get workflow status failed", o))
  }

  /** A rejected status request carries its HTTP status in the message, e.g. `... failed: 401 ...`. */
  lemma {:induction false} StatusFailureMentionsStatus(prefix: string, status: nat, statusText: string, body: string)
    requires !(200 <= status <= 299)
    ensures SingleRequest(prefix, Reply(status, statusText, body)).Thrown?
    ensures Contains(SingleRequest(prefix, Reply(status, statusText, body)).message, NatToString(status))
  {
    var m := SingleRequest(prefix, Reply(status, statusText, body)).message;
    var n := |prefix| + 2;
    assert m == prefix + ": " + NatToString(status) + " " + statusText;
    assert m[n..n + |NatToString(status)|] == NatToString(status);
    ContainsAt(m, NatToString(status), n);
  }
}
