# FinalDash dashboard core in Dafny

A model of the front end of the Perspectives Health analytics dashboard (FinalDash), with proofs
about it. The dashboard shows clinician usage metrics, lists and ranks users, and lets staff
inspect sessions, regenerate a session's populated answers, export sessions, send templated
emails, update the browser-extension version and download a clinical-notes report.

One Dafny module per source file:

| module | source file | what it holds |
|---|---|---|
| `Api` | services/api.ts | the REST client: retry with exponential backoff, the endpoint URLs, the single-shot requests |
| `Auth` | lib/auth.ts | the token store over `localStorage`, expiry, the auth header and login |
| `UserDetailContent` | components/user-detail/user-detail-content.tsx | the Edit & Populate workflow (question list, Save & Populate, status polling), Q&A metrics, session paging |
| `ClinicalNotesReport` | components/dashboard/clinical-notes-report.tsx | center options, user and session selection, and the text report with its line-numbered index |
| `VersionUpdate` | components/dashboard/version-update.tsx | the patch bump and the version editor |
| `AllUsersTable` | components/dashboard/AllUsersTable.tsx | inactivity, last-seen text and the last-activity sort |
| `AllUsersPerCenterTable` | components/dashboard/AllUsersPerCenterTable.tsx | the center filter and its dropdown |
| `AtRiskUsersList` | components/dashboard/at-risk-users-list.tsx | hours and days since last use, the ranking and the risk tiers |
| `UserActivityTable` | components/dashboard/user-activity-table.tsx | the session ranking, the collapsed list and its toggle |
| `DashboardLayout` | components/dashboard/dashboard-layout.tsx | day-over-day changes, the 30-day trend, the date label, the page shown |
| `UserDetailModal` | components/user-detail/user-detail-modal.tsx | the expanded row, the paginator, the CSV export, the last-active text |
| `UsersPage` | app/users/page.tsx | fetching, auto-selection, the last-activity text and the resizable panel |
| `EmailComposerModal` | components/shared/EmailComposerModal.tsx | the four templates, template choice and sending |
| `StatusBadge` | components/shared/status-badge.tsx | the badge colour of a status |

Shared modules hold the JavaScript behaviour the components rely on: `Basics` (`Option`, `Result`),
`Text` (`split`/`join`, `includes`, `startsWith`, `toLowerCase`, `trim`, `parseInt`, number to
text, code-unit string order), `Numbers` (`Math.round` of a quotient, `Array.prototype.slice`,
clamping), `Sorting` (stable sorts by a key), `Collections` (`filter`, the contents of a `Set`)
and `Types` (the records of types/user.ts and types/metrics.ts, and the toast notice).

Components whose React state changes step by step are classes (`Auth.TokenStore`,
`UserDetailContent.PopulateEditor`, `VersionUpdate.VersionEditor`, `AllUsersTable.SortControl`,
`UserActivityTable.ActivityTable`, `UserDetailModal.DetailModal`, `UsersPage.UsersPage`,
`EmailComposerModal.Composer`, `ClinicalNotesReport.ReportForm`). Each handler is a method whose
`ensures` gives the whole new state, usually as a pure transition function of the old state; the
properties are lemmas about those functions. Loops of the source (the retry loop, the report
writer, the index splice, the answer counter, the center `Set`) are methods with loop invariants,
proved equal to a function that is then reasoned about.

Conventions: dates are integer milliseconds since the epoch and "now" is a parameter; a backend
call is replaced by its outcome, given as a parameter (`Result`, `FetchOutcome`, `PollOutcome`,
`PdfOutcome`); locale date and time formatting is a given function; calls the code makes to the
backend are recorded in the state where their order matters (`PopulateState.calls`,
`Composer.requests`).

## Model

| member | source | states |
|---|---|---|
| Api.BaseUrl | services/api.ts:1 | the configured base URL when it is set and not empty, the built-in dashboard URL otherwise |
| Api.Waits | services/api.ts:29 | after the first `n` failures the client has waited `n` delays, the k-th being `2^k · 1000` ms |
| Api.Backoff | services/api.ts:29 | the wait after failed attempt `i`, `2^i · 1000` ms; Waits and DefaultDelays state the delays a run waits |
| Api.BackoffDoubles | services/api.ts:29 | the first wait is one second and each wait is twice the one before |
| Api.FailureMessage | services/api.ts:18-20 | the error a failed attempt raises: `API request failed: ` with the status and its text, or the network error itself; RunAllFail states that the last one is rethrown |
| Api.RunFrom | services/api.ts:9-31 | the retry loop from attempt `i` on; RunFromSkip, RunFirstSuccess, RunAllFail, RunBounds and FailedReplyRetried state how it settles |
| Api.BodyResult | services/api.ts:22 | `response.json()` of a 2xx reply resolves exactly when the body parses, and otherwise rejects with the parser's error |
| Api.ApiRequest | services/api.ts:5-32 | requests `base + endpoint`; the attempts, the delays and how the call settles are exactly those of the retry run `RunFrom(0, retries, fetch)` |
| Api.RunFromSkip | services/api.ts:9-30 | after `i` failed attempts the call continues as a run from attempt `i`, having waited the first `i` delays |
| Api.RunFirstSuccess | services/api.ts:18-22 | the first attempt `j` with a 2xx reply decides the result after `j + 1` attempts and `j` delays: its body, or the rejection of a body that does not parse |
| Api.RunAllFail | services/api.ts:23-27 | when every attempt fails, exactly `retries` attempts are made, `retries - 1` delays waited and the last error rethrown |
| Api.RunBounds | services/api.ts:9-31 | the call resolves to `undefined` exactly when `retries <= 0`; otherwise it makes between 1 and `retries` attempts and waits once per attempt but the last |
| Api.FailedReplyRetried | services/api.ts:18-29 | a non-2xx reply is retried after a one-second wait just like a network failure; no status is exempt |
| Api.DefaultDelays | services/api.ts:5-29 | with the default three retries a request that keeps failing waits 1000 ms, then 2000 ms, then rethrows the third failure |
| Api.GetterUrl | services/api.ts:34-77 | every GET helper requests the base URL followed by a path that starts with `/` |
| Api.Path | services/api.ts:34-77 | the path of each GET helper; GetterUrl and UserSessionsUrlId state the URLs built from it |
| Api.UserSessionsUrlId | services/api.ts:63-65 | the user-sessions URL ends with the user id right after the fixed `/user-sessions/` prefix |
| Api.RootUrl | services/api.ts:80 | a base URL without `/dashboard` is used unchanged as the root |
| Api.DashboardBaseUrls | services/api.ts:79-103 | for a base of the form `host/dashboard`, the retry and workflow-status URLs sit directly under `host` |
| Api.RetryUrl | services/api.ts:80 | the root URL followed by `/retry`; DashboardBaseUrls states where it points |
| Api.WorkflowStatusUrl | services/api.ts:103 | the root URL, `/clinical-sessions/`, the session id and `/all-status`; DashboardBaseUrls states where it points |
| Api.SingleRequest | services/api.ts:95-99 | a single request resolves with the body exactly on a 2xx reply whose body parses; a 2xx reply with a malformed body rejects with the parser's error, a network failure with its own error, and any other reply with the request's prefix and the status |
| Api.RetryPopulate | services/api.ts:79-100 | one POST of the session, workflow and user ids to the retry URL, resolving exactly on a 2xx reply with a parseable body; a malformed body rejects with the parser's error |
| Api.GetWorkflowStatus | services/api.ts:102-118 | one GET of the session's status URL, resolving exactly on a 2xx reply with a parseable body; a malformed body rejects with the parser's error |
| Api.StatusFailureMentionsStatus | services/api.ts:113-115 | a rejected status request's error message contains the HTTP status |
| Auth.Cleared | lib/auth.ts:71-78 | clearing removes both token keys and keeps every other stored key and value |
| Auth.AfterSetToken | lib/auth.ts:31-40 | the store after `setToken`; SetTokenThenGet and SetTokenKeepsExpiry state what is read back |
| Auth.Expired | lib/auth.ts:53-58 | a stored expiry that parses and lies before now; ExpiredTokenCleared, NoExpiryNeverExpires and UnparseableExpiryNeverExpires state its effect |
| Auth.ValidToken | lib/auth.ts:45-66 | what `getToken` returns; SetTokenThenGet, NoTokenIsNull, ExpiredTokenCleared and GetTokenIdempotent state it |
| Auth.AfterGetToken | lib/auth.ts:53-61 | the store after `getToken`, cleared only for an expired token; ExpiredTokenCleared and GetTokenIdempotent state it |
| Auth.AuthHeader | lib/auth.ts:142-145 | the header built from a token; AuthHeaderPresent states it |
| Auth.LoginUrl | lib/auth.ts:90-94 | the production or development host followed by `/login`; TokenStore.Login states that the login posts there |
| Auth.ExpiresAt | lib/auth.ts:114-115 | now plus the lifetime in milliseconds; LoginThenValid and DefaultLoginLifetime state the validity it gives |
| Auth.LoginOutcome | lib/auth.ts:90-130 | how `login` settles for a reply; LoginErrors states every outcome |
| Auth.ExpiresIn | lib/auth.ts:114 | the lifetime is `expires_in` when it is present and not 0, 24 hours (86400 s) when it is missing or 0, and so never 0 |
| Auth.TokenStore.constructor | lib/auth.ts:27 | the store starts empty |
| Auth.TokenStore.SetToken | lib/auth.ts:31-40 | stores the token, and the expiry only when it is truthy |
| Auth.TokenStore.ClearToken | lib/auth.ts:71-78 | the storage afterwards is `Cleared` of the storage before |
| Auth.TokenStore.GetToken | lib/auth.ts:45-66 | returns the stored non-empty token unless a parseable expiry lies in the past, in which case both keys are cleared |
| Auth.TokenStore.IsAuthenticated | lib/auth.ts:83-85 | true exactly when `getToken` returns a token, with the same clearing side effect |
| Auth.TokenStore.Logout | lib/auth.ts:135-137 | logging out clears both keys |
| Auth.TokenStore.GetAuthHeader | lib/auth.ts:142-145 | a bearer header for the valid token, no header without one |
| Auth.TokenStore.Login | lib/auth.ts:90-130 | posts to the build's login URL; settles as `LoginOutcome`; only on success stores the token with expiry `now + expiresIn · 1000` |
| Auth.SetTokenThenGet | lib/auth.ts:31-61 | a token stored with a non-zero expiry is returned up to and including that instant and not after |
| Auth.SetTokenKeepsExpiry | lib/auth.ts:34-36 | storing a token without a truthy expiry leaves any earlier expiry in place |
| Auth.NoTokenIsNull | lib/auth.ts:50 | without a non-empty token `getToken` returns null and changes nothing |
| Auth.ExpiredTokenCleared | lib/auth.ts:53-61 | past a stored expiry the token is dropped and both keys removed; up to it the token is returned unchanged |
| Auth.NoExpiryNeverExpires | lib/auth.ts:53-61 | with no expiry stored the token is returned at every time |
| Auth.UnparseableExpiryNeverExpires | lib/auth.ts:54-55 | an expiry that does not parse never expires the token, since comparing with NaN is false |
| Auth.GetTokenIdempotent | lib/auth.ts:45-66 | reading the token twice at the same time gives the same answer and clears at most once |
| Auth.ClearedHasNoToken | lib/auth.ts:71-78 | after clearing, no token is returned and no header is produced |
| Auth.AuthHeaderPresent | lib/auth.ts:142-145 | the header is present exactly when a token is returned, and carries `Bearer` and that token |
| Auth.LoginThenValid | lib/auth.ts:111-121 | after a successful login the new token is valid until `now + expiresIn · 1000` and expired right after |
| Auth.DefaultLoginLifetime | lib/auth.ts:114-115 | a login without `expires_in` lasts 24 hours |
| Auth.LoginErrors | lib/auth.ts:104-129 | success exactly for a 2xx reply with a parseable body; 401 is reported as bad credentials; any other failed status carries that status; errors without a status are network errors |
| UserDetailContent.OriginalQuestion | components/user-detail/user-detail-content.tsx:188 | the original question is the trimmed processed text when that is non-blank, else the raw question text, else empty |
| UserDetailContent.QuestionList | components/user-detail/user-detail-content.tsx:185-190 | one submitted question per `json_to_populate` entry, in entry order, each the entry's edit or else its original question |
| UserDetailContent.DisplayedVersusSubmitted | components/user-detail/user-detail-content.tsx:1070 | an edit cleared to `''` shows an empty textarea while the original question is still submitted; in every other case the textarea shows what is submitted |
| UserDetailContent.SubmittedQuestion | components/user-detail/user-detail-content.tsx:189 | the edit when it is non-empty, else the original question; DisplayedVersusSubmitted compares it with the textarea |
| UserDetailContent.DisplayedQuestion | components/user-detail/user-detail-content.tsx:1070 | the edit whenever there is one, even an empty one, else the original question; DisplayedVersusSubmitted compares it with what is submitted |
| UserDetailContent.UneditedQuestionList | components/user-detail/user-detail-content.tsx:185-190 | with no edits the submitted list is exactly the original questions |
| UserDetailContent.QuestionListSnoc | components/user-detail/user-detail-content.tsx:185-190 | the list grows by one question per entry appended, so the order of entries is kept |
| UserDetailContent.EntriesOf | components/user-detail/user-detail-content.tsx:185 | `Object.entries` of `json_to_populate` or else `{}`: an object's own entries in order; a string gives one entry per character, keyed by its index and with no question fields; a number, a boolean or a missing value gives none |
| UserDetailContent.StringQuestions | components/user-detail/user-detail-content.tsx:185-190 | for a string `json_to_populate` the question list has one question per character: the edit typed under that index, or else `''` |
| UserDetailContent.QuestionChangeIsLocal | components/user-detail/user-detail-content.tsx:146-148 | editing key `k` sets `editedQuestions[k]` and changes no other key and no other part of the state |
| UserDetailContent.QuestionChanged | components/user-detail/user-detail-content.tsx:146-148 | the edit transition; QuestionChangeIsLocal and QuestionChangeKeepsOneInterval state what it changes and keeps |
| UserDetailContent.FindSession | components/user-detail/user-detail-content.tsx:161 | the session found matches both the session id and the workflow id; none is found only when no session matches both |
| UserDetailContent.OpenResets | components/user-detail/user-detail-content.tsx:150-172 | opening the editor empties the edits and clears the test result, the error and the saved flag, targets the chosen workflow, and takes the given session data or the one found in the list |
| UserDetailContent.Opened | components/user-detail/user-detail-content.tsx:150-172 | the open transition; OpenResets and OpenedKeepsOneInterval state its effect |
| UserDetailContent.CloseResets | components/user-detail/user-detail-content.tsx:363-375 | closing the editor empties the edits, clears error, status and saved flag, and leaves no interval running |
| UserDetailContent.Closed | components/user-detail/user-detail-content.tsx:363-375 | the close transition; CloseResets and ClosedKeepsOneInterval state its effect |
| UserDetailContent.SubmitNeedsSession | components/user-detail/user-detail-content.tsx:179-214 | without a target workflow or a truthy `json_to_populate`, Test and Save & Populate do nothing |
| UserDetailContent.CanSubmit | components/user-detail/user-detail-content.tsx:179-181 | a target workflow and a truthy `json_to_populate` (the empty string is falsy, any other string truthy); SubmitNeedsSession states that without them nothing happens |
| UserDetailContent.Questions | components/user-detail/user-detail-content.tsx:185-190 | the questions the editor would submit, one per entry of `Object.entries` of `json_to_populate` or else `{}`, so one per character of a string; SavedQuestions, StringQuestions and SavedStringQuestions state them |
| UserDetailContent.TestPopulated | components/user-detail/user-detail-content.tsx:174-211 | the test transition; SubmitNeedsSession and TestKeepsOneInterval state its effect |
| UserDetailContent.SaveFailureStops | components/user-detail/user-detail-content.tsx:213-250 | when the save fails only the save was requested, the error reads `Failed: ` and the message, no polling starts and `isSaving` ends false |
| UserDetailContent.RetryFailureStops | components/user-detail/user-detail-content.tsx:231-249 | when the save succeeds and regeneration fails, the save and then the regeneration were requested, the error is shown, no polling starts and `isSaving` ends false |
| UserDetailContent.SaveThenPopulate | components/user-detail/user-detail-content.tsx:231-249 | when both succeed, the save precedes the regeneration request, the editor closes and a fresh interval polls that workflow from count 0 |
| UserDetailContent.SaveComesFirst | components/user-detail/user-detail-content.tsx:227-249 | whatever the outcomes, the first request is the save of the question list and `isSaving` ends false |
| UserDetailContent.SavedAndPopulated | components/user-detail/user-detail-content.tsx:213-250 | the Save & Populate transition; SaveFailureStops, RetryFailureStops, SaveThenPopulate, SaveComesFirst and SaveKeepsOneInterval state its effect for every pair of outcomes |
| UserDetailContent.SaveStarted | components/user-detail/user-detail-content.tsx:227-231 | `isSaving` set and the save request recorded; SaveComesFirst states that it comes first |
| UserDetailContent.RetryStarted | components/user-detail/user-detail-content.tsx:233-237 | the saved flag, the starting status and the regeneration request; RetryFailureStops and SaveThenPopulate state the order of the requests |
| UserDetailContent.Failed | components/user-detail/user-detail-content.tsx:244-249 | the `Failed: ` error and `isSaving` false; SaveFailureStops and RetryFailureStops state it |
| UserDetailContent.PopulateStartedEffect | components/user-detail/user-detail-content.tsx:238-242 | after both requests the editor closes, the status reads "Processing workflow data..." and polling starts on that workflow |
| UserDetailContent.PopulateStarted | components/user-detail/user-detail-content.tsx:238-249 | closes the editor and starts polling; PopulateStartedEffect states it |
| UserDetailContent.SavedQuestions | components/user-detail/user-detail-content.tsx:217-222 | the saved list has one question per entry of `Object.entries` of `json_to_populate` or else `{}` (one per character of a string), the non-empty edit or else the original question |
| UserDetailContent.SavedStringQuestions | components/user-detail/user-detail-content.tsx:213-222 | Save & Populate on a string `json_to_populate` saves one question per character, the edit under that index or else `''`; with no edits, as many empty questions as the string is long |
| UserDetailContent.StartPollingClearsFirst | components/user-detail/user-detail-content.tsx:252-260 | starting to poll clears the known interval before creating a new one at count 0 |
| UserDetailContent.PollingStarted | components/user-detail/user-detail-content.tsx:252-260 | the start-polling transition; StartPollingClearsFirst and PollingStartedInv state that exactly the new interval runs |
| UserDetailContent.InitialInv | components/user-detail/user-detail-content.tsx:53-67 | on mount no interval runs |
| UserDetailContent.InitialState | components/user-detail/user-detail-content.tsx:53-67 | the state on mount; InitialInv states that no interval runs |
| UserDetailContent.ClearTimerInv | components/user-detail/user-detail-content.tsx:254-256 | clearing the interval leaves none running |
| UserDetailContent.ClearTimer | components/user-detail/user-detail-content.tsx:254-256 | `clearInterval` on the known interval; ClearTimerInv states that none is left running |
| UserDetailContent.Halted | components/user-detail/user-detail-content.tsx:329-331 | the interval stopping itself; StatusReplyEffect and TickFailedEffect state when it happens |
| UserDetailContent.PollingStartedInv | components/user-detail/user-detail-content.tsx:252-342 | after `startPolling` exactly the new interval runs |
| UserDetailContent.QuestionChangeKeepsOneInterval | components/user-detail/user-detail-content.tsx:146-148 | editing keeps at most one live interval, the known one |
| UserDetailContent.OpenedKeepsOneInterval | components/user-detail/user-detail-content.tsx:150-172 | opening the editor keeps at most one live interval, the known one |
| UserDetailContent.TestKeepsOneInterval | components/user-detail/user-detail-content.tsx:174-211 | testing keeps at most one live interval, the known one |
| UserDetailContent.ClosedKeepsOneInterval | components/user-detail/user-detail-content.tsx:363-375 | closing keeps the invariant with no interval live |
| UserDetailContent.SaveKeepsOneInterval | components/user-detail/user-detail-content.tsx:213-250 | Save & Populate keeps at most one live interval, whatever the outcomes |
| UserDetailContent.TickKeepsOneInterval | components/user-detail/user-detail-content.tsx:261-339 | every firing of the interval keeps at most one live interval |
| UserDetailContent.TickFailedInv | components/user-detail/user-detail-content.tsx:322-338 | a failed status request keeps the invariant |
| UserDetailContent.TickAnsweredInv | components/user-detail/user-detail-content.tsx:269-320 | a status reply keeps the invariant |
| UserDetailContent.TickAnsweredTimers | components/user-detail/user-detail-content.tsx:269-320 | a status reply either leaves the interval alone or clears it; it never starts one |
| UserDetailContent.StatusReplyEffect | components/user-detail/user-detail-content.tsx:275-320 | completion, `error` and the 100th poll stop and clear the interval; any other reply keeps it; no request is made |
| UserDetailContent.SameTimersInv | components/user-detail/user-detail-content.tsx:252-342 | the one-interval invariant depends only on the interval and the timer events |
| UserDetailContent.TickFailedEffect | components/user-detail/user-detail-content.tsx:322-338 | a thrown error stops polling exactly when it is an authentication error, and makes no request |
| UserDetailContent.TickAnsweredEffect | components/user-detail/user-detail-content.tsx:269-320 | a reply stops polling exactly on completion, on `error`, or when the poll count has reached 100 |
| UserDetailContent.TickBegin | components/user-detail/user-detail-content.tsx:261-266 | the interval stays known at the start of a firing; TickCounts states the count and the request |
| UserDetailContent.TickFailed | components/user-detail/user-detail-content.tsx:322-338 | the `catch` branch; TickFailedEffect, TickAuthError and TickFailedInv state its effect |
| UserDetailContent.TickAnswered | components/user-detail/user-detail-content.tsx:269-320 | the `try` branch; TickAnsweredEffect, TickFinalStatus and TickAnsweredInv state its effect |
| UserDetailContent.StatusReply | components/user-detail/user-detail-content.tsx:275-320 | the classified status applied; StatusReplyEffect and TickTimesOut state its effect |
| UserDetailContent.Ticked | components/user-detail/user-detail-content.tsx:261-339 | one firing of the interval; TickStopsWhen, TickCounts and TickKeepsOneInterval state its effect |
| UserDetailContent.TickAll | components/user-detail/user-detail-content.tsx:252-342 | the interval firing once per outcome while live; TickAllStopped, NonAuthErrorsNeverStop and TimeoutOnHundredthPoll state its effect |
| UserDetailContent.ProgressText | components/user-detail/user-detail-content.tsx:276-287 | the progress text of the four intermediate statuses; StatusReplyEffect states that such a reply keeps polling |
| UserDetailContent.IsCompletion | components/user-detail/user-detail-content.tsx:288-289 | `ready_to_populate` or `completed`; TickFinalStatus states the stop it causes |
| UserDetailContent.IsAuthError | components/user-detail/user-detail-content.tsx:328 | a message naming 401, 403, Forbidden or Not authenticated; TickFailedEffect and StatusRequestAuthFailureStops state the stop it causes |
| UserDetailContent.ElapsedText | components/user-detail/user-detail-content.tsx:264 | the elapsed seconds, three per poll, in the status text |
| UserDetailContent.TickCounts | components/user-detail/user-detail-content.tsx:261-266 | each firing requests the workflow statuses once and, unless it stops, counts one more poll on the same interval |
| UserDetailContent.TickStopsWhen | components/user-detail/user-detail-content.tsx:261-339 | a firing stops polling if and only if it got an authentication error, or a reply that is final for the workflow, or the reply to the 100th poll |
| UserDetailContent.TickFinalStatus | components/user-detail/user-detail-content.tsx:275-302 | completion stops with the success message and schedules the reload; `error` stops with the failure message |
| UserDetailContent.TickAuthError | components/user-detail/user-detail-content.tsx:326-334 | an authentication error stops polling with the manual-refresh message |
| UserDetailContent.StatusRequestAuthFailureStops | components/user-detail/user-detail-content.tsx:326-334 | a 401 or 403 reply to the status request stops polling, because the error message names the status |
| UserDetailContent.TickAllStopped | components/user-detail/user-detail-content.tsx:252-342 | once polling has stopped, nothing changes the state any more |
| UserDetailContent.NonAuthErrorsNeverStop | components/user-detail/user-detail-content.tsx:336-337 | any number of non-authentication errors leave the interval live, counted and with no error shown; the timeout is never checked |
| UserDetailContent.PendingKeepsPolling | components/user-detail/user-detail-content.tsx:313-320 | pending replies keep polling while fewer than 100 polls have been made |
| UserDetailContent.Pending | components/user-detail/user-detail-content.tsx:313-320 | a reply that neither completes nor fails; PendingKeepsPolling and TickTimesOut state what it does |
| UserDetailContent.TickTimesOut | components/user-detail/user-detail-content.tsx:313-320 | a pending reply to the 100th or a later poll stops polling with the timeout message |
| UserDetailContent.TimeoutOnHundredthPoll | components/user-detail/user-detail-content.tsx:258-320 | a fresh loop that sees only pending replies is live after 99 polls and times out on exactly the 100th |
| UserDetailContent.FindStatusFirst | components/user-detail/user-detail-content.tsx:269 | the status read is that of the first entry for the workflow, and there is none exactly when no entry is for it |
| UserDetailContent.FindStatus | components/user-detail/user-detail-content.tsx:269 | the status of the first entry for the workflow; FindStatusFirst states it |
| UserDetailContent.AnsweredCount | components/user-detail/user-detail-content.tsx:395 | at most as many entries are answered as there are entries |
| UserDetailContent.GetQAMetrics | components/user-detail/user-detail-content.tsx:391-402 | a missing or non-object value gives all zeros; otherwise answered plus unanswered is the total, the percentage is the rounded share in 0..100 (0 with no entries), and the colour follows it |
| UserDetailContent.PercentBounds | components/user-detail/user-detail-content.tsx:397 | the rounded percentage of a part of a non-empty whole lies in 0..100 |
| UserDetailContent.QAMetricsExtremes | components/user-detail/user-detail-content.tsx:397-400 | everything answered is 100% and green; nothing answered is 0% and red |
| UserDetailContent.PercentColor | components/user-detail/user-detail-content.tsx:398-400 | green from 80%, yellow from 50%, red below; GetQAMetrics and QAMetricsExtremes state the colour of the metrics |
| UserDetailContent.TotalPages | components/user-detail/user-detail-content.tsx:133 | the page count is the least number of ten-item pages holding all items |
| UserDetailContent.PageContents | components/user-detail/user-detail-content.tsx:131 | each page from 1 to the last holds the next ten items (the last one the rest) and is never empty |
| UserDetailContent.PageOfItem | components/user-detail/user-detail-content.tsx:131-133 | item `i` appears on page `i / 10 + 1` at row `i % 10`, so every item is on some page |
| UserDetailContent.PageOf | components/user-detail/user-detail-content.tsx:131 | `slice((page - 1) * 10, page * 10)`; PageContents and PageOfItem state what each page holds |
| UserDetailContent.PageWindowShowsCurrent | components/user-detail/user-detail-content.tsx:1368-1391 | the page buttons include the current page, number at most five, start a block of five, and are all pages when there are at most five |
| UserDetailContent.PageWindow | components/user-detail/user-detail-content.tsx:1368-1373 | the first and last page button; PageWindowShowsCurrent states that they include the current page |
| UserDetailContent.PreviousNextInRange | components/user-detail/user-detail-content.tsx:1360-1396 | Previous and Next keep the page within 1..totalPages and move by one unless at an end |
| UserDetailContent.PreviousPage | components/user-detail/user-detail-content.tsx:1360 | one page back, not below 1; PreviousNextInRange states it |
| UserDetailContent.NextPage | components/user-detail/user-detail-content.tsx:1395 | one page forward, not past the last; PreviousNextInRange states it |
| UserDetailContent.PopulateEditor.constructor | components/user-detail/user-detail-content.tsx:53-67 | the editor starts closed, with no edits and no interval |
| UserDetailContent.PopulateEditor.HandleQuestionChange | components/user-detail/user-detail-content.tsx:146-148 | the new state is the edit transition of the old one |
| UserDetailContent.PopulateEditor.HandleRetryPopulate | components/user-detail/user-detail-content.tsx:150-172 | the new state is the open transition of the old one |
| UserDetailContent.PopulateEditor.CloseEditor | components/user-detail/user-detail-content.tsx:363-375 | the new state is the close transition of the old one |
| UserDetailContent.PopulateEditor.ClearPollingTimer | components/user-detail/user-detail-content.tsx:254-256 | the known interval is cleared and forgotten |
| UserDetailContent.PopulateEditor.CurrentQuestions | components/user-detail/user-detail-content.tsx:185-190 | the loop returns exactly `Questions`: one question per entry, so one per character of a string `json_to_populate` |
| UserDetailContent.PopulateEditor.HandleTestPopulate | components/user-detail/user-detail-content.tsx:174-211 | the new state is the test transition of the old one, given the outcome of the test request |
| UserDetailContent.PopulateEditor.StartPolling | components/user-detail/user-detail-content.tsx:252-260 | the new state is the start-polling transition of the old one |
| UserDetailContent.PopulateEditor.HandleSaveAndPopulate | components/user-detail/user-detail-content.tsx:213-250 | the new state is the Save & Populate transition of the old one, given both outcomes |
| UserDetailContent.PopulateEditor.BeginSave | components/user-detail/user-detail-content.tsx:227-231 | sets `isSaving` and records the save request |
| UserDetailContent.PopulateEditor.BeginRetry | components/user-detail/user-detail-content.tsx:233-237 | records the saved flag and the regeneration request |
| UserDetailContent.PopulateEditor.Fail | components/user-detail/user-detail-content.tsx:244-249 | shows the error and ends `isSaving` |
| UserDetailContent.PopulateEditor.FinishPopulate | components/user-detail/user-detail-content.tsx:238-249 | closes the editor and starts polling |
| UserDetailContent.PopulateEditor.Tick | components/user-detail/user-detail-content.tsx:261-339 | the new state is one firing of the interval on the given outcome |
| UserDetailContent.PopulateEditor.TickFailedStep | components/user-detail/user-detail-content.tsx:322-338 | the new state is the `catch` branch of a firing |
| UserDetailContent.PopulateEditor.TickAnsweredStep | components/user-detail/user-detail-content.tsx:269-320 | the new state is the `try` branch of a firing |
| UserDetailContent.PopulateEditor.ApplyStatus | components/user-detail/user-detail-content.tsx:275-320 | the new state is the classified status applied |
| ClinicalNotesReport.CenterNames | components/dashboard/clinical-notes-report.tsx:31-35 | only truthy center names are collected |
| ClinicalNotesReport.CenterNamesMembers | components/dashboard/clinical-notes-report.tsx:31-35 | a name is collected if and only if some user has it as a non-empty `center_name` |
| ClinicalNotesReport.NameOptions | components/dashboard/clinical-notes-report.tsx:42 | each name becomes one option whose value and label are that name |
| ClinicalNotesReport.CenterOptionsSorted | components/dashboard/clinical-notes-report.tsx:38-43 | the options start with "All Centers", and the rest are distinct and in ascending order, with value equal to label |
| ClinicalNotesReport.CenterOptionsFromUsers | components/dashboard/clinical-notes-report.tsx:30-43 | every option after "All Centers" is the truthy center name of some user |
| ClinicalNotesReport.CenterOptionsCoverUsers | components/dashboard/clinical-notes-report.tsx:30-43 | every user's truthy center name is offered |
| ClinicalNotesReport.CenterOptions | components/dashboard/clinical-notes-report.tsx:38-43 | the options start with "All Centers", and every later option has its name as both value and label; the order and provenance are in CenterOptionsSorted, CenterOptionsFromUsers and CenterOptionsCoverUsers |
| ClinicalNotesReport.UniqueCenters | components/dashboard/clinical-notes-report.tsx:30-35 | the `Set` loop yields the distinct truthy center names in order of first appearance |
| ClinicalNotesReport.DistinctCentersSnoc | components/dashboard/clinical-notes-report.tsx:31-35 | one more user adds their center name only when it is truthy and not yet present |
| ClinicalNotesReport.SelectedUsersSpec | components/dashboard/clinical-notes-report.tsx:61-66 | "all" keeps every user, any other choice exactly that center's users; either way sorted by email, a permutation of what was kept |
| ClinicalNotesReport.SelectedUsersSorted | components/dashboard/clinical-notes-report.tsx:66 | the selected users are in ascending email order |
| ClinicalNotesReport.SelectedUsers | components/dashboard/clinical-notes-report.tsx:61-66 | never more users than given, and for "all" the same users; the rest is in SelectedUsersSpec |
| ClinicalNotesReport.DaysRangeAfterInput | components/dashboard/clinical-notes-report.tsx:338-343 | the day range either stays or becomes a value from 1 to 365, so a valid range stays valid |
| ClinicalNotesReport.DaysRangeAccepts | components/dashboard/clinical-notes-report.tsx:339-342 | typing a number from 1 to 365 selects it; any other number leaves the range unchanged |
| ClinicalNotesReport.WindowStart | components/dashboard/clinical-notes-report.tsx:69-71 | the window starts the chosen number of whole days before now; ReportDataSessions states that only sessions inside it are kept |
| ClinicalNotesReport.TestWordExcluded | components/dashboard/clinical-notes-report.tsx:98-101 | a patient named "John Test" is a test patient |
| ClinicalNotesReport.LongerWordKept | components/dashboard/clinical-notes-report.tsx:98-101 | "Testing" is not a test patient: only the whole word counts |
| ClinicalNotesReport.HyphenatedWordKept | components/dashboard/clinical-notes-report.tsx:98-101 | "test-x" is not a test patient: words are split on spaces only |
| ClinicalNotesReport.IsTestPatient | components/dashboard/clinical-notes-report.tsx:98-101 | a test patient has the word `test` among the space-separated words of the lower-cased name; TestWordExcluded, LongerWordKept and HyphenatedWordKept pin down which names match |
| ClinicalNotesReport.HasAnswersCount | components/dashboard/clinical-notes-report.tsx:104-109 | a session has answers exactly when its answered count is positive |
| ClinicalNotesReport.HasAnswers | components/dashboard/clinical-notes-report.tsx:104-109 | `json_to_populate` is an object with a truthy answer; HasAnswersCount and AnsweredCountPositive state it |
| Types.ObjectEntries | components/dashboard/clinical-notes-report.tsx:104-108 | entries only for an object: a string, a number or a missing value has none, as the `typeof === 'object'` tests of the report require |
| ClinicalNotesReport.AnsweredCountPositive | components/dashboard/clinical-notes-report.tsx:108 | the answered count is positive exactly when some entry has a truthy answer |
| ClinicalNotesReport.ValidSessionsSpec | components/dashboard/clinical-notes-report.tsx:90-110 | the two filters together keep exactly the reportable sessions (in the period, not a test patient, with an answer): the kept list is the single filter by reportability, each kept session is reportable, each reportable one is kept, and each is kept exactly as often as it occurs |
| ClinicalNotesReport.ValidSessionsConcat | components/dashboard/clinical-notes-report.tsx:90-110 | the filter keeps the given order: the sessions kept from a list split in two are those kept from the first part followed by those kept from the second |
| ClinicalNotesReport.ValidSessions | components/dashboard/clinical-notes-report.tsx:90-110 | the period filter, then the test-patient and answer filter; what it keeps is stated by ValidSessionsSpec and ValidSessionsConcat |
| ClinicalNotesReport.InPeriod | components/dashboard/clinical-notes-report.tsx:90-94 | the sessions created inside the window; ValidSessionsSpec states what the two filters keep |
| ClinicalNotesReport.Reportable | components/dashboard/clinical-notes-report.tsx:90-110 | in the window, not a test patient and with an answer; ValidSessionsSpec states that this is what is kept |
| ClinicalNotesReport.AnsweredTotal | components/dashboard/clinical-notes-report.tsx:113-119 | the sum of the answered counts; AnsweredTotalSnoc and SessionsMeanAnswers state it |
| ClinicalNotesReport.CountAnswers | components/dashboard/clinical-notes-report.tsx:115-117 | the counting loop returns the number of entries with a truthy answer |
| ClinicalNotesReport.AnsweredCountSnoc | components/dashboard/clinical-notes-report.tsx:115-117 | one more entry adds one exactly when its answer is truthy |
| ClinicalNotesReport.AnsweredTotalSnoc | components/dashboard/clinical-notes-report.tsx:113-119 | one more session adds its answered count to the total |
| ClinicalNotesReport.SessionsMeanAnswers | components/dashboard/clinical-notes-report.tsx:96-119 | kept sessions each have an answer, so the total is at least the number of sessions |
| ClinicalNotesReport.FailedFetchListed | components/dashboard/clinical-notes-report.tsx:124-128 | a user whose sessions could not be fetched is still listed, with no sessions and no answers |
| ClinicalNotesReport.ClinicianOfEmail | components/dashboard/clinical-notes-report.tsx:78-83 | a clinician's section carries the user's email |
| ClinicalNotesReport.ClinicianOf | components/dashboard/clinical-notes-report.tsx:78-128 | one user's section data; ClinicianOfEmail, FailedFetchListed and GatherClinician state it |
| ClinicalNotesReport.GatherClinician | components/dashboard/clinical-notes-report.tsx:78-128 | one user's data: email, center or `''`, the kept sessions and their answered questions |
| ClinicalNotesReport.Clinicians | components/dashboard/clinical-notes-report.tsx:77-129 | one section's data per user |
| ClinicalNotesReport.GatherClinicians | components/dashboard/clinical-notes-report.tsx:77-129 | the loop over the users yields the data of each, in order |
| ClinicalNotesReport.ReportDataOrder | components/dashboard/clinical-notes-report.tsx:58-129 | one section per selected user, in email order, under that user's email |
| ClinicalNotesReport.ReportDataSessions | components/dashboard/clinical-notes-report.tsx:69-128 | each section holds only reportable sessions of its own user in the window, with their answers summed; a failed fetch gives an empty section |
| ClinicalNotesReport.ReportData | components/dashboard/clinical-notes-report.tsx:58-129 | the section data of the selected users; ReportDataOrder and ReportDataSessions state it |
| ClinicalNotesReport.Preamble | components/dashboard/clinical-notes-report.tsx:166-189 | the header, the index title, the placeholder and the rule; CountPreamble and IndexRuleLine state its line breaks and its rule |
| ClinicalNotesReport.Block | components/dashboard/clinical-notes-report.tsx:195-239 | one clinician's section; WriteClinician proves the writer produces it and HeadingLine where its heading lands |
| ClinicalNotesReport.Spliced | components/dashboard/clinical-notes-report.tsx:248-260 | the placeholder lines replaced by the final index; SpliceIndex, SplicedKeepsLater and SplicedKeepsLine state it |
| ClinicalNotesReport.TextFallback | components/dashboard/clinical-notes-report.tsx:131-152 | the text report is written when the PDF generator is missing, fails or asks for the fallback; Download and ReportForm.GenerateReport state it |
| ClinicalNotesReport.ReportFileName | components/dashboard/clinical-notes-report.tsx:263 | `clinical_notes_report_`, the file date and `.txt`; Download states that the report is saved under it |
| ClinicalNotesReport.PlaceholderLines | components/dashboard/clinical-notes-report.tsx:184 | one numbered placeholder line per clinician |
| ClinicalNotesReport.SessionTexts | components/dashboard/clinical-notes-report.tsx:209-231 | one text per session |
| ClinicalNotesReport.BlockTexts | components/dashboard/clinical-notes-report.tsx:192-240 | one section per clinician |
| ClinicalNotesReport.IndexEntries | components/dashboard/clinical-notes-report.tsx:193 | one index entry per clinician |
| ClinicalNotesReport.IndexLines | components/dashboard/clinical-notes-report.tsx:243-245 | one index line per entry |
| ClinicalNotesReport.FirstLine | components/dashboard/clinical-notes-report.tsx:248-255 | the search finds the first line equal to the target, and finds none exactly when no line is |
| ClinicalNotesReport.CountIndexHeading | components/dashboard/clinical-notes-report.tsx:178-181 | the index heading holds two line breaks, not the three the source adds |
| ClinicalNotesReport.CountPlaceholder | components/dashboard/clinical-notes-report.tsx:184-186 | the placeholder holds `n + 1` line breaks (2 when empty), not the `n + 2` the source adds |
| ClinicalNotesReport.CountSectionRule | components/dashboard/clinical-notes-report.tsx:188-189 | the rule under the index holds two line breaks |
| ClinicalNotesReport.CountPreamble | components/dashboard/clinical-notes-report.tsx:166-189 | the line breaks before the first section: the header's, 2, the placeholder's, 2 |
| ClinicalNotesReport.CountNoSessions | components/dashboard/clinical-notes-report.tsx:233-236 | the no-sessions line adds two line breaks |
| ClinicalNotesReport.SourceLineOf | components/dashboard/clinical-notes-report.tsx:175-193 | the line number as the source's `currentLine` records it; SourceIndexOffByThree relates it to the true line |
| ClinicalNotesReport.LineOf | components/dashboard/clinical-notes-report.tsx:192-193 | the corrected line number: one more than the line breaks before the section; IndexPointsAtHeading shows it is the heading's line |
| ClinicalNotesReport.IndexLine | components/dashboard/clinical-notes-report.tsx:243-245 | one index line: number, email, dot padding, line number; NoBreakInIndexLine and IndexLinesSplit show each stays a single line of the final index |
| ClinicalNotesReport.TextReport | components/dashboard/clinical-notes-report.tsx:161-260 | the finished report with the corrected index; GenerateTextReport proves the writer produces it and IndexPointsAtHeading that its index names each heading's line |
| ClinicalNotesReport.SourceIndexOffByThree | components/dashboard/clinical-notes-report.tsx:175-186 | as written, every line number in the index is three more than the line where that clinician's section starts |
| ClinicalNotesReport.HeadingLine | components/dashboard/clinical-notes-report.tsx:192-199 | before the index is spliced in, each clinician's heading is a whole line at the line the corrected count records |
| ClinicalNotesReport.IndexRuleLine | components/dashboard/clinical-notes-report.tsx:178-179 | the line after the index title is the `==================` line the splice searches for |
| ClinicalNotesReport.IndexLinesSplit | components/dashboard/clinical-notes-report.tsx:243-258 | the final index, joined and split again, gives back one line per clinician |
| ClinicalNotesReport.SpliceKeepsLater | components/dashboard/clinical-notes-report.tsx:258-259 | replacing `n` lines by `n` others keeps every later line at its number |
| ClinicalNotesReport.SplicedKeepsLater | components/dashboard/clinical-notes-report.tsx:248-260 | splicing the index in below the rule keeps every line after the placeholder where it was |
| ClinicalNotesReport.SplicedKeepsLine | components/dashboard/clinical-notes-report.tsx:248-260 | a heading below the rule and the placeholder keeps its line number through the splice |
| ClinicalNotesReport.IndexPointsAtHeading | components/dashboard/clinical-notes-report.tsx:161-260 | with the corrected count, the line each index entry names is that clinician's `CLINICIAN:` heading in the finished report |
| ClinicalNotesReport.WriteClinician | components/dashboard/clinical-notes-report.tsx:195-239 | writes one clinician's section and returns the number of line breaks written |
| ClinicalNotesReport.GenerateTextReport | components/dashboard/clinical-notes-report.tsx:161-260 | the loop writes exactly the report of the corrected line count: preamble, sections, then the spliced index |
| ClinicalNotesReport.SpliceIndex | components/dashboard/clinical-notes-report.tsx:248-260 | the search-and-splice loop yields the report with the placeholder lines replaced by the final index |
| ClinicalNotesReport.IndexComplete | components/dashboard/clinical-notes-report.tsx:192-193 | an index holding each clinician's email and section line is the index of the report |
| ClinicalNotesReport.ReportForm.constructor | components/dashboard/clinical-notes-report.tsx:14-18 | no centers, "all" selected, seven days, not generating, no error |
| ClinicalNotesReport.ReportForm.FetchCenters | components/dashboard/clinical-notes-report.tsx:25-50 | a successful load sets the options built from the users; a failure keeps them and shows "Failed to load centers" |
| ClinicalNotesReport.ReportForm.SelectCenter | components/dashboard/clinical-notes-report.tsx:315 | selects the chosen center and changes nothing else |
| ClinicalNotesReport.ReportForm.ChangeDaysRange | components/dashboard/clinical-notes-report.tsx:338-343 | the range becomes the typed value when it is from 1 to 365 |
| ClinicalNotesReport.FileDate | components/dashboard/clinical-notes-report.tsx:282-284 | the file date is the part of the ISO timestamp before the first `T`, and so contains no `T` |
| ClinicalNotesReport.FileDateOfIso | components/dashboard/clinical-notes-report.tsx:282-284 | for a timestamp of the form `date` + `T` + `clock`, the file date is exactly `date` |
| ClinicalNotesReport.Download | components/dashboard/clinical-notes-report.tsx:52-263 | a file is produced exactly when the users loaded and the PDF path falls back to text; it is named `clinical_notes_report_` + the file date + `.txt` and holds the text report |
| ClinicalNotesReport.ReportForm.GenerateReport | components/dashboard/clinical-notes-report.tsx:52-263 | downloads, under the dated file name, the text report of the selected data when the PDF path falls back; the error is cleared on success and set on a failed load; `isGenerating` ends false |
| VersionUpdate.NumberText | components/dashboard/version-update.tsx:46 | the rendered patch, a number or `NaN`, never holds a dot |
| VersionUpdate.Increment | components/dashboard/version-update.tsx:42-49 | a version with fewer than three dot-separated parts is returned unchanged |
| VersionUpdate.IncrementShape | components/dashboard/version-update.tsx:43-46 | a version of three or more parts becomes exactly three: the first two unchanged and the bumped patch |
| VersionUpdate.IncrementBumpsPatch | components/dashboard/version-update.tsx:42-49 | `major.minor.n` becomes `major.minor.(n+1)` for a decimal patch `n` |
| VersionUpdate.BumpedPatch | components/dashboard/version-update.tsx:45 | `parseInt` of the patch plus one, or no number; IncrementBumpsPatch states the bump of a decimal patch |
| VersionUpdate.UpdatedToast | components/dashboard/version-update.tsx:67-70 | the success toast after an update: titled Success, not destructive, its text ending with the version just set |
| VersionUpdate.IncrementDropsExtra | components/dashboard/version-update.tsx:44-46 | parts after the third are dropped: a fourth part makes no difference to the result |
| VersionUpdate.SplitThree | components/dashboard/version-update.tsx:43-46 | three dot-free parts joined with dots split back into those three parts |
| VersionUpdate.VersionEditor.constructor | components/dashboard/version-update.tsx:12-17 | empty versions, nothing editing, loading, updating or open, no notices |
| VersionUpdate.VersionEditor.LoadCurrentVersion | components/dashboard/version-update.tsx:24-40 | success makes the loaded version current and proposes its bump; failure keeps both and adds the load-failure notice; loading ends false |
| VersionUpdate.VersionEditor.EditClick | components/dashboard/version-update.tsx:51-54 | starts editing with the bump of the current version proposed |
| VersionUpdate.VersionEditor.EditNewVersion | components/dashboard/version-update.tsx:105 | the typed text becomes the proposed version |
| VersionUpdate.VersionEditor.SaveClick | components/dashboard/version-update.tsx:56-58 | opens the confirmation dialog and changes nothing else |
| VersionUpdate.VersionEditor.SetDialogOpen | components/dashboard/version-update.tsx:143 | the dialog's own open/close request is applied as it is |
| VersionUpdate.VersionEditor.ConfirmUpdate | components/dashboard/version-update.tsx:60-81 | only an accepted update makes the proposed version current, ends editing, closes the dialog and adds the success notice; a failure adds the error notice and changes nothing else; updating ends false |
| VersionUpdate.VersionEditor.Cancel | components/dashboard/version-update.tsx:83-86 | ends editing and proposes the bump of the current version again |
| AllUsersTable.ShownDaysAgreeWithFlag | components/dashboard/AllUsersTable.tsx:21-27 | the whole days shown agree with the inactivity flag: more days than the threshold means inactive, and an inactive user shows at least the threshold |
| AllUsersTable.IsInactive | components/dashboard/AllUsersTable.tsx:23 | no last session, or more than the threshold in (fractional) days since it; ShownDaysAgreeWithFlag relates it to the days shown |
| AllUsersTable.LastSeenText | components/dashboard/AllUsersTable.tsx:25-27 | "Never" exactly when there is no last session; otherwise a day count followed by " days ago" |
| AllUsersTable.Row | components/dashboard/AllUsersTable.tsx:20-40 | the version column is never blank ("N/A" stands for a missing or empty version), and the row is flagged exactly when the user is inactive |
| AllUsersTable.SortCenters | components/dashboard/AllUsersTable.tsx:77-88 | one center per center, in their order |
| AllUsersTable.SortCentersSpec | components/dashboard/AllUsersTable.tsx:77-88 | sorting by last activity keeps every center and its fields, and reorders its users (a permutation) ascending or descending by last session time, no session counting as 0 |
| AllUsersTable.OtherColumnKeepsOrder | components/dashboard/AllUsersTable.tsx:84-85 | any other sort column leaves every center and the order of its users as they were |
| AllUsersTable.SortUsers | components/dashboard/AllUsersTable.tsx:77-88 | a center's users are reordered, none added, lost or duplicated; the order is stated by SortCentersSpec and OtherColumnKeepsOrder |
| AllUsersTable.View | components/dashboard/AllUsersTable.tsx:60-75 | the spinner exactly while loading with no data, the notice exactly when not loading with none or with an empty list, otherwise every center |
| AllUsersTable.SortClickTwice | components/dashboard/AllUsersTable.tsx:51-58 | clicking the current column twice restores its direction; clicking another column twice ends descending on it |
| AllUsersTable.AfterSortClick | components/dashboard/AllUsersTable.tsx:51-58 | the clicked column becomes current; clicking the current column changes the direction, another column starts ascending |
| AllUsersTable.SortControl.constructor | components/dashboard/AllUsersTable.tsx:48-49 | sorts by last activity, ascending |
| AllUsersTable.SortControl.HandleSort | components/dashboard/AllUsersTable.tsx:51-58 | the current column flips direction; another column becomes current, ascending |
| AllUsersPerCenterTable.FilteredCentersSpec | components/dashboard/AllUsersPerCenterTable.tsx:62-64 | "All Centers" shows every center as given; any other choice shows only centers of that name, each exactly as often as it is listed |
| AllUsersPerCenterTable.FilteredCentersOrder | components/dashboard/AllUsersPerCenterTable.tsx:62-64 | the filter keeps the given order: a list split in two shows the first part's matches then the second's, and a single center is shown exactly when it matches |
| AllUsersPerCenterTable.FilteredCenters | components/dashboard/AllUsersPerCenterTable.tsx:62-64 | never more centers than given, none not given; all of them for "All Centers", otherwise only centers of the chosen name |
| AllUsersPerCenterTable.CenterNames | components/dashboard/AllUsersPerCenterTable.tsx:66 | one name per center, in order |
| AllUsersPerCenterTable.DropdownNamesSpec | components/dashboard/AllUsersPerCenterTable.tsx:66 | the dropdown holds "All Centers" and each center name as often as listed, in sorted order |
| AllUsersPerCenterTable.DropdownNames | components/dashboard/AllUsersPerCenterTable.tsx:66 | one more entry than there are centers: "All Centers" and each center name as often as listed |
| AllUsersPerCenterTable.Row | components/dashboard/AllUsersPerCenterTable.tsx:17-37 | the last-seen text and the flag are those of the all-users table, so "Never" always comes flagged |
| AllUsersPerCenterTable.View | components/dashboard/AllUsersPerCenterTable.tsx:46-64 | the spinner exactly while loading with no data, the notice exactly when not loading with none or with an empty list; "All Centers" shows every center, any choice at most the centers given |
| AtRiskUsersList.AnnotateSpec | components/dashboard/at-risk-users-list.tsx:20-25 | the hours are the whole hours elapsed and the days the whole days elapsed |
| AtRiskUsersList.Annotate | components/dashboard/at-risk-users-list.tsx:20-25 | one user's whole hours and days since last use; AnnotateSpec states them |
| AtRiskUsersList.Annotated | components/dashboard/at-risk-users-list.tsx:20-25 | one annotated entry per user |
| AtRiskUsersList.AtRiskSpec | components/dashboard/at-risk-users-list.tsx:19-26 | every user appears once, annotated, and the list runs from the longest inactive down |
| AtRiskUsersList.AtRisk | components/dashboard/at-risk-users-list.tsx:19-26 | one annotated entry per user, the same entries reordered; the order is stated by AtRiskSpec |
| AtRiskUsersList.DisplayedSpec | components/dashboard/at-risk-users-list.tsx:16-28 | at most five users are shown, the first five of the ranking, and none left out has more hours than one shown |
| AtRiskUsersList.Displayed | components/dashboard/at-risk-users-list.tsx:28 | expanded, every user; collapsed, the first min(5, users) of the ranking |
| AtRiskUsersList.RiskMonotone | components/dashboard/at-risk-users-list.tsx:30-54 | more hours never gives a lower risk tier |
| AtRiskUsersList.RiskLevel | components/dashboard/at-risk-users-list.tsx:30-54 | critical exactly from 72 hours, high exactly from 48 to 71, medium exactly below 48 |
| AtRiskUsersList.TiersDescend | components/dashboard/at-risk-users-list.tsx:26-80 | down the shown list the tiers never rise: critical, then high, then medium |
| AtRiskUsersList.View | components/dashboard/at-risk-users-list.tsx:66 | the all-active message is shown exactly when there are no users |
| UserActivityTable.RankedSpec | components/dashboard/user-activity-table.tsx:24 | the ranking is a permutation of the entries, most sessions first |
| UserActivityTable.Ranked | components/dashboard/user-activity-table.tsx:24 | the ranking has the same entries as the data |
| UserActivityTable.DisplayedSpec | components/dashboard/user-activity-table.tsx:25 | collapsed, the first `maxRows` of the ranking are shown, none hidden has more sessions, and without the toggle nothing is hidden |
| UserActivityTable.ToggleShown | components/dashboard/user-activity-table.tsx:68 | the toggle appears when there are more entries than `maxRows`; DisplayedSpec states that otherwise nothing is hidden |
| UserActivityTable.HeaderText | components/dashboard/user-activity-table.tsx:35 | the count of all entries followed by ` active users` |
| UserActivityTable.ToggleText | components/dashboard/user-activity-table.tsx:74 | `Show Less` when expanded, else `View All`, the count of all entries and `Users` |
| UserActivityTable.Displayed | components/dashboard/user-activity-table.tsx:25 | always a prefix of the ranking: all of it when expanded, else as much as `slice(0, maxRows)` keeps, for any `maxRows` |
| UserActivityTable.Rows | components/dashboard/user-activity-table.tsx:39-60 | each shown entry's rank is its position plus one, with its email, its `Last active: ` line and its session count |
| UserActivityTable.ActivityTable.constructor | components/dashboard/user-activity-table.tsx:19 | starts collapsed |
| UserActivityTable.ActivityTable.Toggle | components/dashboard/user-activity-table.tsx:71 | flips between collapsed and expanded |
| UserActivityTable.ActivityTable.DisplayedRows | components/dashboard/user-activity-table.tsx:24-60 | the rows on screen are the top of the ranking, numbered from 1, each with its last-active time: every entry when expanded, otherwise min(maxRows, entries) of them for a non-negative `maxRows` |
| DashboardLayout.ChangeOf | components/dashboard/dashboard-layout.tsx:82-94 | the change is today minus yesterday, up exactly when today is not lower, and the percentage is the rounded relative change, 0 when yesterday is 0 |
| DashboardLayout.ChangeSignAgrees | components/dashboard/dashboard-layout.tsx:86-91 | an upward change never shows a negative percentage and a positive percentage is always upward |
| DashboardLayout.ChangesSpec | components/dashboard/dashboard-layout.tsx:82-110 | both changes exist exactly when today's counts and a past day exist, and compare with the most recent day |
| DashboardLayout.UsersChange | components/dashboard/dashboard-layout.tsx:82-94 | a users change exists exactly when today's counts and a past day exist, and is today's users minus the most recent day's |
| DashboardLayout.SessionsChange | components/dashboard/dashboard-layout.tsx:96-110 | a sessions change exists exactly when today's counts and a past day exist, and is today's sessions minus the most recent day's |
| DashboardLayout.Reversed | components/dashboard/dashboard-layout.tsx:145 | the reversed series has the same length, element `i` being element `n-1-i` |
| DashboardLayout.Trend | components/dashboard/dashboard-layout.tsx:141-157 | one point for each of up to 30 days; the order is stated by TrendSpec |
| DashboardLayout.Points | components/dashboard/dashboard-layout.tsx:147-154 | one chart point per day, each its date, users and emails |
| DashboardLayout.Point | components/dashboard/dashboard-layout.tsx:147-154 | one day's date, users and emails as a chart point; Points and TrendSpec state the series |
| DashboardLayout.TrendSpec | components/dashboard/dashboard-layout.tsx:141-157 | the chart has one point for each of up to 30 recent days, oldest first, the last point being the most recent day |
| DashboardLayout.DateLabel | components/dashboard/dashboard-layout.tsx:14-32 | no date or today's date reads TODAY, yesterday's date YESTERDAY |
| DashboardLayout.View | components/dashboard/dashboard-layout.tsx:62-77 | the loading page exactly while loading with no metrics, the notice exactly when not loading with none; the activity table gets 10 rows and the TODAY label |
| UserDetailModal.Toggled | components/user-detail/user-detail-modal.tsx:61-67 | at most one row is expanded afterwards; the toggled row is expanded exactly when it was not, and no other row is |
| UserDetailModal.RowKeySeparatesWorkflows | components/user-detail/user-detail-modal.tsx:203-209 | two rows of the same session get the same key exactly when they belong to the same workflow |
| UserDetailModal.RowKey | components/user-detail/user-detail-modal.tsx:203 | the session id, a dash and the workflow id; RowKeySeparatesWorkflows states what it tells apart |
| UserDetailModal.PageOf | components/user-detail/user-detail-modal.tsx:95-97 | nothing before the sessions load; at most ten sessions, none not in the list |
| UserDetailModal.PageSpec | components/user-detail/user-detail-modal.tsx:95-97 | page `p` holds the sessions from `10(p-1)`, up to ten, and is non-empty exactly when `p` is at most the page count |
| UserDetailModal.ShowPaginator | components/user-detail/user-detail-modal.tsx:425 | the paginator shows exactly when there are more than ten sessions |
| UserDetailModal.PageButtons | components/user-detail/user-detail-modal.tsx:436-441 | the numbered buttons are 1 up to min(5, pages), whatever the current page |
| UserDetailModal.NextClicksReach | components/user-detail/user-detail-modal.tsx:455 | `k` clicks on Next reach page min(page + k, pages), so pages past the fifth are reached only by Next |
| UserDetailModal.NextClicks | components/user-detail/user-detail-modal.tsx:455 | the page after `k` clicks on Next; NextClicksReach states it |
| UserDetailModal.CsvLines | components/user-detail/user-detail-modal.tsx:74-83 | one comma-joined line of the six fields per session |
| UserDetailModal.CsvFields | components/user-detail/user-detail-modal.tsx:75-82 | the six fields of a session's line, date first; CsvReadsBack states that they read back |
| UserDetailModal.Export | components/user-detail/user-detail-modal.tsx:69-93 | a file exists exactly when the sessions have loaded, named after the user's email |
| UserDetailModal.CsvReadsBack | components/user-detail/user-detail-modal.tsx:72-84 | with no comma or line break in any field, the file reads back as the header and one six-field line per session |
| UserDetailModal.PlainLine | components/user-detail/user-detail-modal.tsx:75-82 | a line of comma-free fields splits back into those fields |
| UserDetailModal.CommaShiftsColumns | components/user-detail/user-detail-modal.tsx:75-82 | a patient name with a comma gives its line seven fields, shifting the columns |
| UserDetailModal.Csv | components/user-detail/user-detail-modal.tsx:72-84 | the header line and one comma-joined line per session, joined by line breaks; CsvReadsBack and CommaShiftsColumns state how it reads back |
| UserDetailModal.LastActive | components/user-detail/user-detail-modal.tsx:99-110 | "Never" exactly when the sessions are missing or empty |
| UserDetailModal.LastActiveSpec | components/user-detail/user-detail-modal.tsx:99-110 | under an hour reads "Less than 1 hour ago", under a day the whole hours, then the whole days with "day(s)"; the same text as user-detail-content.tsx:377-388 |
| UserDetailModal.DetailModal.constructor | components/user-detail/user-detail-modal.tsx:35-36 | page 1, nothing expanded |
| UserDetailModal.DetailModal.ToggleRowExpansion | components/user-detail/user-detail-modal.tsx:61-67 | the expanded rows become the toggled set, at most one row |
| UserDetailModal.DetailModal.PreviousClick | components/user-detail/user-detail-modal.tsx:428 | goes back one page, not below 1 |
| UserDetailModal.DetailModal.NextClick | components/user-detail/user-detail-modal.tsx:455 | goes forward one page, not past the last |
| UserDetailModal.DetailModal.PageButtonClick | components/user-detail/user-detail-modal.tsx:441 | jumps to the chosen page |
| UserDetailModal.DetailModal.CurrentPage | components/user-detail/user-detail-modal.tsx:95 | nothing before the sessions load; from page 1 on, the sessions that follow the earlier pages' ones, in list order: ten, or the rest on the last page, or none past it |
| UsersPage.FormatLastActivity | app/users/page.tsx:50-63 | no session reads "No sessions"; any session reads something ending in " ago" |
| UsersPage.FormatLastActivitySpec | app/users/page.tsx:53-62 | under an hour, whole hours under a day, "1 day ago" on the second day, then whole days with "day(s)" |
| UsersPage.AgreesWithModal | app/users/page.tsx:56-62 | the list and the detail modal word the same session alike, except on its second day ("1 day ago" against "1 day(s) ago") |
| UsersPage.PanelWidth | app/users/page.tsx:75 | the width is the pointer's position held between 250 and 600 |
| UsersPage.AutoSelectSpec | app/users/page.tsx:36-38 | a non-empty list always ends with a listed user selected, a selection still listed is kept, and an empty list keeps the selection |
| UsersPage.AutoSelect | app/users/page.tsx:36-38 | selects the first user when nothing is selected or the selection is no longer listed; AutoSelectSpec states what it guarantees |
| UsersPage.UsersPage.constructor | app/users/page.tsx:18-23 | no users, nothing selected, loading, sorted by recent session, 320 pixels, not dragging |
| UsersPage.UsersPage.FetchUsers | app/users/page.tsx:29-44 | success replaces the list and adjusts the selection; failure keeps both; loading ends false |
| UsersPage.UsersPage.ChangeSort | app/users/page.tsx:25-27 | the key is recorded, and the list is fetched again only when the key changes |
| UsersPage.UsersPage.SelectUser | app/users/page.tsx:46-48 | the clicked user becomes selected |
| UsersPage.UsersPage.MouseDown | app/users/page.tsx:65-68 | dragging starts |
| UsersPage.UsersPage.MouseMove | app/users/page.tsx:70-77 | while dragging the width follows the pointer within bounds; otherwise nothing changes |
| UsersPage.UsersPage.MouseUp | app/users/page.tsx:79-81 | dragging stops |
| EmailComposerModal.Lookup | components/shared/EmailComposerModal.tsx:26-87 | only the four template keys have a template, never `custom` |
| EmailComposerModal.Name | components/shared/EmailComposerModal.tsx:28-72 | the caption of each template in the dropdown; NamesDistinct states no two are alike |
| EmailComposerModal.NamesDistinct | components/shared/EmailComposerModal.tsx:28-72 | two templates have the same caption exactly when they are the same template |
| EmailComposerModal.SubjectNamesUser | components/shared/EmailComposerModal.tsx:29-73 | every template's subject ends with " - " and the user's name |
| EmailComposerModal.Subject | components/shared/EmailComposerModal.tsx:29-73 | the four subjects; SubjectNamesUser states that each ends with the user's name |
| EmailComposerModal.BodyGreetsUser | components/shared/EmailComposerModal.tsx:30-74 | every body opens with its greeting, the user's name and a comma |
| EmailComposerModal.BodyShowsLink | components/shared/EmailComposerModal.tsx:34-80 | a linked template shows the supplied link when truthy, its bracketed placeholder otherwise |
| EmailComposerModal.LinkText | components/shared/EmailComposerModal.tsx:34-80 | the supplied link when truthy, else the template's placeholder, none for check-in; BodyShowsLink and CheckInIgnoresLinks state it |
| EmailComposerModal.CheckInIgnoresLinks | components/shared/EmailComposerModal.tsx:60-69 | the check-in body is the same whatever links are supplied |
| EmailComposerModal.Body | components/shared/EmailComposerModal.tsx:30-86 | the four bodies; BodyGreetsUser, BodyShowsLink and CheckInIgnoresLinks state their greeting and link |
| EmailComposerModal.TemplateArgument | components/shared/EmailComposerModal.tsx:158 | the template sent is none exactly for a custom message, else the selected key |
| EmailComposerModal.Composer.constructor | components/shared/EmailComposerModal.tsx:90-93 | an empty custom message, not sending |
| EmailComposerModal.Composer.Open | components/shared/EmailComposerModal.tsx:98-104 | opening resets to an empty custom message |
| EmailComposerModal.Composer.ChangeTemplate | components/shared/EmailComposerModal.tsx:121-140 | the choice is recorded; custom clears the message, a template fills it in for the user with the fixed links, an unknown key keeps it |
| EmailComposerModal.Composer.EditSubject | components/shared/EmailComposerModal.tsx:90 | the typed subject replaces the old one |
| EmailComposerModal.Composer.EditBody | components/shared/EmailComposerModal.tsx:91 | the typed body replaces the old one |
| EmailComposerModal.Composer.SendEmail | components/shared/EmailComposerModal.tsx:142-176 | an empty subject or body gives the missing-information notice and no request; otherwise one request, success closes with the sent notice, failure gives the error notice; sending ends false |
| EmailComposerModal.SentToast | components/shared/EmailComposerModal.tsx:161-165 | the success notice naming the recipient; Composer.SendEmail states when it is shown |
| EmailComposerModal.SendFailedToast | components/shared/EmailComposerModal.tsx:168-172 | the failure notice naming the recipient; Composer.SendEmail states when it is shown |
| StatusBadge.StatusStyle | components/shared/status-badge.tsx:7-20 | green exactly when the lower-cased status mentions complete or active; yellow and red only on their words; gray exactly when none of the six words appears |
| StatusBadge.StyleIgnoresCase | components/shared/status-badge.tsx:8 | upper and lower case make no difference to the colour |
| StatusBadge.GreenWins | components/shared/status-badge.tsx:10-12 | text around a green status keeps it green, so "error: not completed" shows as a success |
| StatusBadge.InactiveIsGreen | components/shared/status-badge.tsx:10 | "inactive" contains "active" and is shown green |
| StatusBadge.ClassName | components/shared/status-badge.tsx:11-19 | the four colour classes; ClassNamesDistinct states they are distinct |
| StatusBadge.ClassNamesDistinct | components/shared/status-badge.tsx:11-19 | each colour has a class of its own: two styles give the same class exactly when they are the same |

## Left out

- Rendering, styling, icons, scrolling, focus and dropdown positioning; only the values the components compute are modelled.
- Network I/O, timers and the clock are inputs: each request is given by its outcome, `setTimeout`/`setInterval` delays are recorded but not waited, `Date.now()` is a parameter.
- `console.log`/`console.error` output, `window.history.replaceState` URL updates and `window.location.reload` (recorded only as a scheduled flag).
- File downloads: the `Blob`, the object URL and the anchor click of `downloadTextFile` and of the CSV export are not modelled; the model produces the file name and the text handed to them.
- The PDF generator of utils/pdf-generator is not part of this model; its result is the `PdfOutcome` parameter.
- Parsing of date strings (`new Date(string)`), `toLocaleDateString`/`toLocaleTimeString`, `toISOString` and time zones: timestamps are integers and formatting functions are parameters; an unparseable date (NaN) is not modelled.
- `setDate(getDate() - days)` is taken as subtracting whole 24-hour days; daylight-saving shifts are not modelled.
- Several `new Date()` reads in one handler are taken as one instant.
- `localeCompare` and the default `sort()` are modelled as code-unit order; locale collation is not.
- `toLowerCase` is modelled on ASCII letters only, and string lengths count characters rather than UTF-16 code units.
- Numbers are unbounded integers: floating-point rounding of the percentages, precision above 2^53 and non-integer API counts are not modelled; `Math.round` is modelled exactly on the rational quotient.
- The session table's `JSON.parse` of a string `json_to_populate`, which only decides whether the Q&A and Edit & Populate buttons appear, is not modelled; the editor receives the session as the backend sent it, so a string value reaches the question list as a string (`JsonString`), as in the source.
- The JSON content of response bodies: a body is an opaque string, and `response.json()` is modelled only as resolving with it or rejecting with the parser's message (`FetchOutcome.Unparseable`).
- Exceptions thrown by `localStorage` (caught and logged by the source) are not modelled.
- The close effect of the Edit & Populate dialog, which can clear the interval Save & Populate has just started, depends on React's effect scheduling and is not modelled; `CloseEditor` models the reset it performs.
- The stale `isDragging` closure of the users page's mouse-move listener is not modelled: `MouseMove` reads the current flag.
- The email template variables object passed to `sendEmail` (year, logo, links) and the `onClose` callback's effect beyond the count of close requests.
- `emailTemplates[key]` for inherited object keys such as `constructor` is not modelled: only the four template keys have a template.
- Values computed and never shown: `maxSessions` in the activity table and `atRiskCount` in the dashboard layout are left out; `metricsDateLabel` is computed by `DashboardLayout.DateLabel` (`formatDateLabel`), but the layout never shows it.
- AtRiskUsersList.DisplayedSpec: states only the collapsed list, because nothing in the component ever sets `showAll`.
- UsersPage.FormatLastActivity: its own contract only fixes the "No sessions" case and the " ago" ending; the wording by elapsed time is in `UsersPage.FormatLastActivitySpec`.
- StatusBadge.StatusStyle: yellow and red are stated in one direction only (a status with their words may be green first).
- ClinicalNotesReport.ReportForm.GenerateReport: downloads the report with the corrected index (`TextReport`, whose index `IndexPointsAtHeading` proves right), not the source's, whose line numbers are three too high; the source's arithmetic is modelled by `SourceLineOf` and compared in `SourceIndexOffByThree` (see Findings).
- ClinicalNotesReport.Download: the same corrected report as `GenerateReport`, for the same reason.
- Components outside the listed files (charts, metric cards, hooks, the backend in Python) are not part of this model.

## Findings

| source | as written | input that shows it | evidently intended | confidence | as-written member | corrected member |
|---|---|---|---|---|---|---|
| components/dashboard/clinical-notes-report.tsx:175-186 | `currentLine` adds `header.split('\n').length` (one more than the header's line breaks), 3 for the two-line index title and `n + 2` for a placeholder holding `n + 1` line breaks | any report with one or more clinicians: the index line of the first clinician names a line three below that clinician's `CLINICIAN:` heading | each index entry names the line on which that clinician's section heading stands | not executed | ClinicalNotesReport.SourceIndexOffByThree | ClinicalNotesReport.IndexPointsAtHeading |
