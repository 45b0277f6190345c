/**
 * The Edit & Populate workflow of components/user-detail/user-detail-content.tsx: the question
 * list sent to the backend, the editor's state handlers, the Save & Populate sequence and the
 * status-polling state machine; plus the Q&A metrics and the session-table paging.
 *
 * The component's React state is the `PopulateEditor` class; every handler is a method whose new
 * state is a pure transition function of the old one (`Opened`, `SavedAndPopulated`, `Ticked`, ...),
 * and the properties are lemmas about those functions. Calls to the backend are recorded in the
 * `calls` trace and their outcomes are arguments; one call of `Tick` is one firing of the 3-second
 * interval, and the timer handles the component creates and clears are recorded in `timers`.
 */
module UserDetailContent {
  import opened Basics
  import opened Text
  import opened Numbers
  import opened Types
  import Api

  // ---------------------------------------------------------------------------------------
  // The question list

  /** `q.processed_question_text?.trim() || q.question_text || ''`. */
  function OriginalQuestion(item: QAItem): (q: string)
    ensures item.processedQuestionText.Some? && Trim(item.processedQuestionText.value) != "" ==>
      q == Trim(item.processedQuestionText.value)
    ensures (item.processedQuestionText.None? || Trim(item.processedQuestionText.value) == "") ==>
      q == item.questionText.GetOr("")
  {
    if item.processedQuestionText.Some? && Trim(item.processedQuestionText.value) != "" then
      Trim(item.processedQuestionText.value)
    else if Truthy(item.questionText) then item.questionText.value
    else ""
  }

  /** The question submitted for an entry: `editedQuestions[key] || originalQuestion`. */
  function SubmittedQuestion(edits: map<string, string>, key: string, item: QAItem): string {
    if key in edits && edits[key] != "" then edits[key] else OriginalQuestion(item)
  }

  /** The textarea's value for an entry: `editedQuestions[key] ?? originalQuestion`. */
  function DisplayedQuestion(edits: map<string, string>, key: string, item: QAItem): string {
    if key in edits then edits[key] else OriginalQuestion(item)
  }

  /** The questions sent for a workflow: one per `json_to_populate` entry, in entry order. */
  function QuestionList(edits: map<string, string>, entries: seq<(string, QAItem)>): (qs: seq<string>)
    ensures |qs| == |entries|
    ensures forall i :: 0 <= i < |entries| ==> qs[i] == SubmittedQuestion(edits, entries[i].0, entries[i].1)
  {
    if entries == [] then []
    else [SubmittedQuestion(edits, entries[0].0, entries[0].1)] + QuestionList(edits, entries[1..])
  }

  /**
   * The textarea and the submitted list agree except on an edit cleared to `""`: the textarea
   * shows it empty (`??`) while the submitted list falls back to the original text (`||`).
   */
  lemma {:induction false} DisplayedVersusSubmitted(edits: map<string, string>, key: string, item: QAItem)
    ensures key in edits && edits[key] == "" ==>
      DisplayedQuestion(edits, key, item) == "" && SubmittedQuestion(edits, key, item) == OriginalQuestion(item)
    ensures !(key in edits && edits[key] == "") ==>
      DisplayedQuestion(edits, key, item) == SubmittedQuestion(edits, key, item)
  {
  }

  /** With no edits the submitted list is the list of original questions. */
  lemma {:induction false} UneditedQuestionList(entries: seq<(string, QAItem)>)
    ensures QuestionList(map[], entries) == seq(|entries|, i requires 0 <= i < |entries| => OriginalQuestion(entries[i].1))
  {
  }

  /**
   * The entries `Object.entries(json_to_populate || {})` yields. A string has one entry per
   * character, keyed by its index; the character has no question fields, so it reads as an
   * item with nothing in it. Numbers and booleans have none.
   */
  function EntriesOf(json: PopulateJson): (r: seq<(string, QAItem)>)
    ensures json.Entries? ==> r == json.entries
    ensures json.JsonString? ==> |r| == |json.text|
    ensures json.JsonString? ==> forall i :: 0 <= i < |r| ==> r[i] == (IntToString(i), CharItem)
    ensures json.Falsy? || json.NotAnObject? ==> r == []
  {
    match json
    case Entries(entries) => entries
    case JsonString(text) => seq(|text|, i requires 0 <= i < |text| => (IntToString(i), CharItem))
    case _ => []
  }

  /** A one-character string read as a `JsonToPopulateItem`: every field is `undefined`. */
  const CharItem := QAItem(None, None, None, None, "")

  /**
   * A `json_to_populate` still holding its JSON text is walked character by character: one
   * question per character, the edit typed under the character's index or else `""`.
   */
  lemma {:induction false} StringQuestions(edits: map<string, string>, text: string)
    ensures var qs := QuestionList(edits, EntriesOf(JsonString(text)));
      && |qs| == |text|
      && forall i :: 0 <= i < |text| ==> qs[i] == (if IntToString(i) in edits then edits[IntToString(i)] else "")
  {
    var entries := EntriesOf(JsonString(text));
    forall i | 0 <= i < |text|
      ensures SubmittedQuestion(edits, entries[i].0, entries[i].1)
        == (if IntToString(i) in edits then edits[IntToString(i)] else "")
    {
      assert entries[i] == (IntToString(i), CharItem);
      assert OriginalQuestion(CharItem) == "";
    }
  }

  // ---------------------------------------------------------------------------------------
  // Editor state

  datatype EditTarget = EditTarget(sessionId: string, workflowId: string)

  /** The backend calls the component makes, in the order it makes them. */
  datatype ApiCall =
    | SaveQuestions(workflowId: string, questions: seq<string>)
    | RetryPopulateCall(sessionId: string, workflowId: string, userId: string)
    | TestPopulateCall(sessionId: string, workflowId: string, questions: seq<string>, userId: string)
    | WorkflowStatusCall(sessionId: string)

  /** `setInterval` creating the timer with a handle, and `clearInterval` clearing it. */
  datatype TimerEvent = Started(handle: nat) | Cleared(handle: nat)

  /** The live polling interval: its handle, what it polls, and its closure's `pollCount`. */
  datatype Poll = Poll(handle: nat, sessionId: string, workflowId: string, count: nat)

  /** One entry of the `all-status` response. */
  datatype WorkflowStatus = WorkflowStatus(workflowId: string, status: string)

  /** What one `getWorkflowStatus` call inside the interval produced. */
  datatype PollOutcome = Statuses(entries: seq<WorkflowStatus>) | PollFailed(message: string)

  /** The component's state that the Edit & Populate handlers read and write. */
  datatype PopulateState = PopulateState(
    showEditModal: bool,
    editedQuestions: map<string, string>,
    editing: Option<EditTarget>,
    currentSession: Option<SessionDetail>,
    testResult: Option<string>,
    isPopulating: bool,
    isSaving: bool,
    saveSuccess: bool,
    populateStatus: string,
    populateError: string,
    polling: Option<Poll>,
    nextTimer: nat,
    reloadScheduled: bool,
    calls: seq<ApiCall>,
    timers: seq<TimerEvent>)

  /** The state on mount. */
  function InitialState(): PopulateState {
    PopulateState(false, map[], None, None, None, false, false, false, "", "", None, 0, false, [], [])
  }

  /** The timers started and not yet cleared, after a sequence of timer events. */
  function Running(timers: seq<TimerEvent>): set<nat> {
    if timers == [] then {}
    else
      var last := timers[|timers| - 1];
      match last
      case Started(h) => Running(timers[..|timers| - 1]) + {h}
      case Cleared(h) => Running(timers[..|timers| - 1]) - {h}
  }

  /** At most one interval is live, and it is the one the state knows about; handles are fresh. */
  predicate Inv(s: PopulateState) {
    && Running(s.timers) == (if s.polling.Some? then {s.polling.value.handle} else {})
    && (forall i :: 0 <= i < |s.timers| ==> s.timers[i].handle < s.nextTimer)
    && (s.polling.Some? ==> s.polling.value.handle < s.nextTimer)
  }

  lemma {:induction false} InitialInv()
    ensures Inv(InitialState())
  {
  }

  /** `clearInterval` on the live interval, if there is one. */
  function ClearTimer(s: PopulateState): PopulateState {
    if s.polling.Some? then s.(polling := None, timers := s.timers + [Cleared(s.polling.value.handle)]) else s
  }

  /** The interval stopping itself: clear it, forget it, `isPopulating` false. */
  function Halted(s: PopulateState): PopulateState {
    ClearTimer(s).(isPopulating := false)
  }

  /** `handleQuestionChange(key, value)`. */
  function QuestionChanged(s: PopulateState, key: string, value: string): PopulateState {
    s.(editedQuestions := s.editedQuestions[key := value])
  }

  /** `sessions.find(s => s.session_id === sessionId && s.workflow_id === workflowId)`. */
  function FindSession(sessions: seq<SessionDetail>, sessionId: string, workflowId: string): (r: Option<SessionDetail>)
    ensures r.Some? ==> r.value in sessions && r.value.sessionId == sessionId && r.value.workflowId == workflowId
    ensures r.None? ==> forall i :: 0 <= i < |sessions| ==>
      !(sessions[i].sessionId == sessionId && sessions[i].workflowId == workflowId)
  {
    if sessions == [] then None
    else if sessions[0].sessionId == sessionId && sessions[0].workflowId == workflowId then Some(sessions[0])
    else FindSession(sessions[1..], sessionId, workflowId)
  }

  /** `handleRetryPopulate(sessionId, workflowId, sessionData)`: open the editor on a workflow. */
  function Opened(s: PopulateState, sessionId: string, workflowId: string, sessionData: Option<SessionDetail>,
                  sessions: seq<SessionDetail>): PopulateState
  {
    s.(editing := Some(EditTarget(sessionId, workflowId)),
       currentSession := if sessionData.Some? then sessionData else FindSession(sessions, sessionId, workflowId),
       editedQuestions := map[],
       testResult := None,
       populateError := "",
       saveSuccess := false,
       showEditModal := true)
  }

  /** The reset that closing the editor triggers. */
  function Closed(s: PopulateState): PopulateState {
    Halted(s.(showEditModal := false, populateStatus := "", populateError := "", saveSuccess := false,
              editedQuestions := map[]))
  }

  /** Whether the editor has what Test and Save & Populate need: a target and a truthy `json_to_populate`. */
  predicate CanSubmit(s: PopulateState) {
    s.editing.Some? && s.currentSession.Some? && PopulateTruthy(s.currentSession.value.jsonToPopulate)
  }

  /** The questions the editor would submit. */
  function Questions(s: PopulateState): seq<string>
    requires CanSubmit(s)
  {
    QuestionList(s.editedQuestions, EntriesOf(s.currentSession.value.jsonToPopulate))
  }

  /** `handleTestPopulate()` with the outcome of `api.testPopulate`. */
  function TestPopulated(s: PopulateState, userId: string, outcome: Result<string, string>): PopulateState {
    if !CanSubmit(s) then s
    else
      var t := s.editing.value;
      var s1 := s.(isPopulating := true,
                   calls := s.calls + [TestPopulateCall(t.sessionId, t.workflowId, Questions(s), userId)]);
      var s2 := match outcome
        case Ok(v) => s1.(testResult := Some(v))
        case Err(m) => s1.(populateError := "Test failed: " + m);
      s2.(isPopulating := false)
  }

  /** `startPolling(sessionId, workflowId)`: clear any live interval, then start a fresh one at count 0. */
  function PollingStarted(s: PopulateState, sessionId: string, workflowId: string): PopulateState {
    var c := ClearTimer(s);
    c.(polling := Some(Poll(c.nextTimer, sessionId, workflowId, 0)),
       timers := c.timers + [Started(c.nextTimer)],
       nextTimer := c.nextTimer + 1)
  }

  /**
   * `handleSaveAndPopulate()` with the outcomes of `api.saveQuestions` and of the `retryPopulate`
   * request: save, then trigger regeneration, then close the editor and poll.
   */
  function SavedAndPopulated(s: PopulateState, userId: string, save: Result<Unit, string>, retry: Api.FetchOutcome)
    : PopulateState
  {
    if !CanSubmit(s) then s
    else
      var t := s.editing.value;
      var s1 := SaveStarted(s, t, Questions(s));
      if save.Err? then Failed(s1, save.error)
      else
        var s2 := RetryStarted(s1, t, userId);
        var r := Api.SingleRequest("Retry populate failed", retry);
        if r.Thrown? then Failed(s2, r.message)
        else PopulateStarted(s2, t)
  }

  /** `setIsSaving(true)` and the `saveQuestions` call. */
  function SaveStarted(s: PopulateState, t: EditTarget, questions: seq<string>): PopulateState {
    s.(isSaving := true, calls := s.calls + [SaveQuestions(t.workflowId, questions)])
  }

  /** The saved flag, the status and the `retryPopulate` call, once the save resolved. */
  function RetryStarted(s1: PopulateState, t: EditTarget, userId: string): PopulateState {
    s1.(saveSuccess := true, populateStatus := "Starting populate process...",
        calls := s1.calls + [RetryPopulateCall(t.sessionId, t.workflowId, userId)])
  }

  /** The `catch` and `finally` of Save & Populate. */
  function Failed(s: PopulateState, message: string): PopulateState {
    s.(populateError := "Failed: " + message, isSaving := false)
  }

  /** Both requests resolved: close the editor, poll, and (`finally`) `isSaving` false. */
  function PopulateStarted(s2: PopulateState, t: EditTarget): PopulateState {
    PollingStarted(s2.(populateStatus := "Processing workflow data...", showEditModal := false),
                   t.sessionId, t.workflowId).(isSaving := false)
  }

  // ---------------------------------------------------------------------------------------
  // One firing of the polling interval

  const MaxPolls: nat := 100
  const SuccessMessage: string := "✅ Populate completed successfully!"
  const FailureMessage: string := "❌ Populate failed due to an error. Please try again."
  const TimeoutMessage: string :=
    "⏰ Populate timed out after 5 minutes. The process may still be running in the background."
  const AuthMessage: string :=
    "⚠️ Authentication required for status check. Please refresh manually to check if populate completed."

  /** `workflowStatuses.find(w => w.workflow_id === workflowId)?.status`. */
  function FindStatus(ws: seq<WorkflowStatus>, workflowId: string): (r: Option<string>)
  {
    if ws == [] then None
    else if ws[0].workflowId == workflowId then Some(ws[0].status)
    else FindStatus(ws[1..], workflowId)
  }

  /** The status found is that of the first entry for the workflow; there is none exactly when no entry is for it. */
  lemma {:induction false} FindStatusFirst(ws: seq<WorkflowStatus>, workflowId: string)
    ensures FindStatus(ws, workflowId).None? <==> forall i :: 0 <= i < |ws| ==> ws[i].workflowId != workflowId
    ensures FindStatus(ws, workflowId).Some? ==>
      exists i :: (0 <= i < |ws| && ws[i].workflowId == workflowId && ws[i].status == FindStatus(ws, workflowId).value
        && forall j :: 0 <= j < i ==> ws[j].workflowId != workflowId)
  {
    if ws != [] && ws[0].workflowId != workflowId {
      FindStatusFirst(ws[1..], workflowId);
      if FindStatus(ws, workflowId).Some? {
        var i :| 0 <= i < |ws[1..]| && ws[1..][i].workflowId == workflowId
          && ws[1..][i].status == FindStatus(ws, workflowId).value
          && forall j :: 0 <= j < i ==> ws[1..][j].workflowId != workflowId;
        assert ws[i + 1] == ws[1..][i];
        assert forall j :: 1 <= j < i + 1 ==> ws[j] == ws[1..][j - 1];
      }
    }
  }

  /** The progress text for the intermediate statuses of the `switch`; other statuses leave it alone. */
  function ProgressText(status: string): Option<string> {
    if status == "created" then Some("Initializing workflow...")
    else if status == "ready_for_generation" then Some("Preparing to generate responses...")
    else if status == "generating_workflow_responses" then Some("AI is generating responses...")
    else if status == "post_processing" then Some("Finalizing responses...")
    else None
  }

  predicate IsCompletion(status: string) {
    status == "ready_to_populate" || status == "completed"
  }

  /** A thrown polling error that stops the loop: its message mentions 401, 403, Forbidden or Not authenticated. */
  predicate IsAuthError(message: string) {
    Contains(message, "401") || Contains(message, "403") || Contains(message, "Forbidden")
    || Contains(message, "Not authenticated")
  }

  function ElapsedText(prefix: string, count: nat): string {
    prefix + NatToString(count * 3) + "s)"
  }

  /** The start of every firing: count the poll, show the elapsed time, request the statuses. */
  function TickBegin(s: PopulateState): (r: PopulateState)
    requires s.polling.Some?
    ensures r.polling.Some?
  {
    var p := s.polling.value;
    var n := p.count + 1;
    s.(polling := Some(p.(count := n)),
       populateStatus := ElapsedText("Checking progress... (", n),
       calls := s.calls + [WorkflowStatusCall(p.sessionId)])
  }

  /** The `catch` branch: stop on an authentication error, otherwise report and keep polling. */
  function TickFailed(s1: PopulateState, message: string): PopulateState
    requires s1.polling.Some?
  {
    if IsAuthError(message) then Halted(s1).(populateError := AuthMessage, populateStatus := "")
    else s1.(populateStatus := ElapsedText("Connection error... retrying (", s1.polling.value.count))
  }

  /** The `try` branch after the statuses arrived, given our workflow's status if listed. */
  function TickAnswered(s1: PopulateState, st: Option<string>): PopulateState
    requires s1.polling.Some?
  {
    StatusReply(s1, st.Some? && IsCompletion(st.value), st == Some("error"),
                if st.Some? then ProgressText(st.value) else None)
  }

  /**
   * The `try` branch once the status is classified: completed, failed, or still running with an
   * optional progress text; a running workflow times out on the 100th poll.
   */
  function StatusReply(s1: PopulateState, done: bool, failed: bool, progress: Option<string>): PopulateState
    requires s1.polling.Some?
  {
    if done then
      Halted(s1).(populateStatus := SuccessMessage, reloadScheduled := true)
    else if failed then
      Halted(s1).(populateError := FailureMessage, populateStatus := "")
    else
      var s2 := if progress.Some? then s1.(populateStatus := progress.value) else s1;
      if s1.polling.value.count >= MaxPolls then Halted(s2).(populateError := TimeoutMessage, populateStatus := "") else s2
  }

  /** One firing of the interval callback. */
  function Ticked(s: PopulateState, outcome: PollOutcome): PopulateState
    requires s.polling.Some?
  {
    var s1 := TickBegin(s);
    match outcome
    case PollFailed(m) => TickFailed(s1, m)
    case Statuses(ws) => TickAnswered(s1, FindStatus(ws, s.polling.value.workflowId))
  }

  /** The state after the interval fires once per outcome, for as long as it stays live. */
  function TickAll(s: PopulateState, outcomes: seq<PollOutcome>): PopulateState {
    if outcomes == [] then s
    else
      var t := TickAll(s, outcomes[..|outcomes| - 1]);
      if t.polling.Some? then Ticked(t, outcomes[|outcomes| - 1]) else t
  }

  /** A successful status response that neither completes, fails, nor (by itself) times out. */
  predicate Pending(o: PollOutcome, workflowId: string) {
    o.Statuses?
    && var st := FindStatus(o.entries, workflowId);
    (st.None? || (!IsCompletion(st.value) && st.value != "error"))
  }

  // ---------------------------------------------------------------------------------------
  // The component

  class PopulateEditor {
    var showEditModal: bool
    var editedQuestions: map<string, string>
    var editing: Option<EditTarget>
    var currentSession: Option<SessionDetail>
    var testResult: Option<string>
    var isPopulating: bool
    var isSaving: bool
    var saveSuccess: bool
    var populateStatus: string
    var populateError: string
    var polling: Option<Poll>
    var nextTimer: nat
    var reloadScheduled: bool
    var calls: seq<ApiCall>
    var timers: seq<TimerEvent>

    function State(): PopulateState
      reads this
    {
      PopulateState(showEditModal, editedQuestions, editing, currentSession, testResult, isPopulating, isSaving,
                    saveSuccess, populateStatus, populateError, polling, nextTimer, reloadScheduled, calls, timers)
    }

    constructor()
      ensures State() == InitialState()
    {
      showEditModal, editedQuestions, editing, currentSession, testResult := false, map[], None, None, None;
      isPopulating, isSaving, saveSuccess, populateStatus, populateError := false, false, false, "", "";
      polling, nextTimer, reloadScheduled, calls, timers := None, 0, false, [], [];
    }

    method HandleQuestionChange(key: string, value: string)
      modifies this
      ensures State() == QuestionChanged(old(State()), key, value)
    {
      editedQuestions := editedQuestions[key := value];
    }

    method HandleRetryPopulate(sessionId: string, workflowId: string, sessionData: Option<SessionDetail>,
                               sessions: seq<SessionDetail>)
      modifies this
      ensures State() == Opened(old(State()), sessionId, workflowId, sessionData, sessions)
    {
      var session := if sessionData.Some? then sessionData else FindSession(sessions, sessionId, workflowId);
      editing, currentSession := Some(EditTarget(sessionId, workflowId)), session;
      editedQuestions, testResult, populateError, saveSuccess, showEditModal := map[], None, "", false, true;
    }

    method ClearPollingTimer()
      modifies this
      ensures State() == ClearTimer(old(State()))
    {
      if polling.Some? {
        timers := timers + [Cleared(polling.value.handle)];
        polling := None;
      }
    }

    /** Closing the editor, with the reset it triggers. */
    method CloseEditor()
      modifies this
      ensures State() == Closed(old(State()))
    {
      ghost var s0 := State();
      showEditModal, populateStatus, populateError, saveSuccess, editedQuestions := false, "", "", false, map[];
      ghost var s1 := State();
      assert s1 == s0.(showEditModal := false, populateStatus := "", populateError := "", saveSuccess := false,
                       editedQuestions := map[]);
      assert Closed(s0) == Halted(s1);
      ClearPollingTimer();
      isPopulating := false;
      assert State() == Halted(s1);
    }

    method CurrentQuestions() returns (questions: seq<string>)
      requires CanSubmit(State())
      ensures questions == Questions(State())
    {
      var entries := EntriesOf(currentSession.value.jsonToPopulate);
      questions := [];
      var i := 0;
      while i < |entries|
        invariant 0 <= i <= |entries|
        invariant questions == QuestionList(editedQuestions, entries[..i])
      {
        assert entries[..i + 1][..i] == entries[..i];
        QuestionListSnoc(editedQuestions, entries[..i + 1]);
        questions := questions + [SubmittedQuestion(editedQuestions, entries[i].0, entries[i].1)];
        i := i + 1;
      }
      assert entries[..i] == entries;
    }

    method HandleTestPopulate(userId: string, outcome: Result<string, string>)
      modifies this
      ensures State() == TestPopulated(old(State()), userId, outcome)
    {
      if editing.None? || currentSession.None? || !PopulateTruthy(currentSession.value.jsonToPopulate) {
        return;
      }
      var questions := CurrentQuestions();
      isPopulating := true;
      calls := calls + [TestPopulateCall(editing.value.sessionId, editing.value.workflowId, questions, userId)];
      match outcome {
        case Ok(v) => testResult := Some(v);
        case Err(m) => populateError := "Test failed: " + m;
      }
      isPopulating := false;
    }

    method StartPolling(sessionId: string, workflowId: string)
      modifies this
      ensures State() == PollingStarted(old(State()), sessionId, workflowId)
    {
      ClearPollingTimer();
      polling := Some(Poll(nextTimer, sessionId, workflowId, 0));
      timers := timers + [Started(nextTimer)];
      nextTimer := nextTimer + 1;
    }

    method HandleSaveAndPopulate(userId: string, save: Result<Unit, string>, retry: Api.FetchOutcome)
      modifies this
      ensures State() == SavedAndPopulated(old(State()), userId, save, retry)
    {
      if editing.None? || currentSession.None? || !PopulateTruthy(currentSession.value.jsonToPopulate) {
        return;
      }
      var target := editing.value;
      var questions := CurrentQuestions();
      BeginSave(target, questions);
      if save.Err? {
        Fail(save.error);
        return;
      }
      BeginRetry(target, userId);
      var r := Api.SingleRequest("Retry populate failed", retry);
      if r.Thrown? {
        Fail(r.message);
        return;
      }
      FinishPopulate(target);
    }

    method BeginSave(target: EditTarget, questions: seq<string>)
      modifies this
      ensures State() == SaveStarted(old(State()), target, questions)
    {
      isSaving := true;
      calls := calls + [SaveQuestions(target.workflowId, questions)];
    }

    method BeginRetry(target: EditTarget, userId: string)
      modifies this
      ensures State() == RetryStarted(old(State()), target, userId)
    {
      saveSuccess := true;
      populateStatus := "Starting populate process...";
      calls := calls + [RetryPopulateCall(target.sessionId, target.workflowId, userId)];
    }

    method Fail(message: string)
      modifies this
      ensures State() == Failed(old(State()), message)
    {
      populateError := "Failed: " + message;
      isSaving := false;
    }

    method FinishPopulate(target: EditTarget)
      modifies this
      ensures State() == PopulateStarted(old(State()), target)
    {
      ghost var s0 := State();
      populateStatus := "Processing workflow data...";
      showEditModal := false;
      assert State() == s0.(populateStatus := "Processing workflow data...", showEditModal := false);
      StartPolling(target.sessionId, target.workflowId);
      isSaving := false;
    }

    method Tick(outcome: PollOutcome)
      requires polling.Some?
      modifies this
      ensures State() == Ticked(old(State()), outcome)
    {
      var p := polling.value;
      var n := p.count + 1;
      polling := Some(p.(count := n));
      populateStatus := ElapsedText("Checking progress... (", n);
      calls := calls + [WorkflowStatusCall(p.sessionId)];
      assert State() == TickBegin(old(State()));
      match outcome {
        case PollFailed(m) => TickFailedStep(m);
        case Statuses(ws) => TickAnsweredStep(FindStatus(ws, p.workflowId));
      }
    }

    method TickFailedStep(message: string)
      requires polling.Some?
      modifies this
      ensures State() == TickFailed(old(State()), message)
    {
      if IsAuthError(message) {
        ClearPollingTimer();
        isPopulating := false;
        populateError := AuthMessage;
        populateStatus := "";
      } else {
        populateStatus := ElapsedText("Connection error... retrying (", polling.value.count);
      }
    }

    method TickAnsweredStep(st: Option<string>)
      requires polling.Some?
      modifies this
      ensures State() == TickAnswered(old(State()), st)
    {
      ApplyStatus(st.Some? && IsCompletion(st.value), st == Some("error"),
                  if st.Some? then ProgressText(st.value) else None);
    }

    method ApplyStatus(done: bool, failed: bool, progress: Option<string>)
      requires polling.Some?
      modifies this
      ensures State() == StatusReply(old(State()), done, failed, progress)
    {
      var n := polling.value.count;
      if done {
        ClearPollingTimer();
        isPopulating := false;
        populateStatus := SuccessMessage;
        reloadScheduled := true;
        return;
      }
      if failed {
        ClearPollingTimer();
        isPopulating := false;
        populateError := FailureMessage;
        populateStatus := "";
        return;
      }
      if progress.Some? {
        populateStatus := progress.value;
      }
      if n >= MaxPolls {
        ClearPollingTimer();
        isPopulating := false;
        populateError := TimeoutMessage;
        populateStatus := "";
      }
    }
  }

  lemma {:induction false} QuestionListSnoc(edits: map<string, string>, entries: seq<(string, QAItem)>)
    requires entries != []
    ensures QuestionList(edits, entries)
      == QuestionList(edits, entries[..|entries| - 1])
         + [SubmittedQuestion(edits, entries[|entries| - 1].0, entries[|entries| - 1].1)]
  {
  }

  // ---------------------------------------------------------------------------------------
  // Properties of the handlers

  /** Editing one question changes that edit and nothing else. */
  lemma {:induction false} QuestionChangeIsLocal(s: PopulateState, key: string, value: string)
    ensures var r := QuestionChanged(s, key, value);
      && r.editedQuestions[key] == value
      && (forall k :: k != key ==> (k in r.editedQuestions <==> k in s.editedQuestions))
      && (forall k :: k != key && k in s.editedQuestions ==> r.editedQuestions[k] == s.editedQuestions[k])
      && r == s.(editedQuestions := r.editedQuestions)
  {
  }

  /** Opening the editor empties the edit buffer and clears the test result, the error and the saved flag. */
  lemma {:induction false} OpenResets(s: PopulateState, sessionId: string, workflowId: string, sessionData: Option<SessionDetail>,
                   sessions: seq<SessionDetail>)
    ensures var r := Opened(s, sessionId, workflowId, sessionData, sessions);
      && r.editedQuestions == map[] && r.testResult.None? && r.populateError == "" && !r.saveSuccess
      && r.showEditModal && r.editing == Some(EditTarget(sessionId, workflowId))
      && (sessionData.Some? ==> r.currentSession == sessionData)
      && (r.currentSession.Some? ==> sessionData.Some? || r.currentSession.value in sessions)
      && r.polling == s.polling && r.calls == s.calls
  {
  }

  /** Closing the editor empties the edit buffer and leaves no interval live. */
  lemma {:induction false} CloseResets(s: PopulateState)
    requires Inv(s)
    ensures var r := Closed(s);
      && r.editedQuestions == map[] && r.populateError == "" && r.populateStatus == "" && !r.saveSuccess
      && !r.showEditModal && !r.isPopulating && r.polling.None? && Running(r.timers) == {}
  {
  }

  /** Without a target or a truthy `json_to_populate`, Test and Save & Populate change nothing. */
  lemma {:induction false} SubmitNeedsSession(s: PopulateState, userId: string, save: Result<Unit, string>, retry: Api.FetchOutcome,
                           test: Result<string, string>)
    requires !CanSubmit(s)
    ensures SavedAndPopulated(s, userId, save, retry) == s
    ensures TestPopulated(s, userId, test) == s
  {
  }

  /** Save & Populate when the save fails: only the save was requested; the error is shown and nothing polls. */
  lemma {:induction false} SaveFailureStops(s: PopulateState, userId: string, save: Result<Unit, string>, retry: Api.FetchOutcome)
    requires CanSubmit(s) && save.Err?
    ensures var r := SavedAndPopulated(s, userId, save, retry);
      && !r.isSaving
      && r.calls == s.calls + [SaveQuestions(s.editing.value.workflowId, Questions(s))]
      && r.populateError == "Failed: " + save.error && r.polling == s.polling && r.timers == s.timers
  {
    var t := s.editing.value;
    var s1 := SaveStarted(s, t, Questions(s));
    assert SavedAndPopulated(s, userId, save, retry) == Failed(s1, save.error);
  }

  /**
   * Save & Populate when the save succeeds and the regeneration request fails: both were
   * requested, in that order; the error is shown and nothing polls.
   */
  lemma {:induction false} RetryFailureStops(s: PopulateState, userId: string, save: Result<Unit, string>, retry: Api.FetchOutcome)
    requires CanSubmit(s) && save.Ok? && !retry.Succeeded()
    ensures var r := SavedAndPopulated(s, userId, save, retry);
      var t := s.editing.value;
      && !r.isSaving
      && r.calls == s.calls + [SaveQuestions(t.workflowId, Questions(s)), RetryPopulateCall(t.sessionId, t.workflowId, userId)]
      && r.populateError == "Failed: " + Api.SingleRequest("Retry populate failed", retry).message
      && r.saveSuccess && r.polling == s.polling && r.timers == s.timers
  {
    var t := s.editing.value;
    var s2 := RetryStarted(SaveStarted(s, t, Questions(s)), t, userId);
    assert s2.calls == s.calls + [SaveQuestions(t.workflowId, Questions(s)), RetryPopulateCall(t.sessionId, t.workflowId, userId)];
    var out := Api.SingleRequest("Retry populate failed", retry);
    assert SavedAndPopulated(s, userId, save, retry) == Failed(s2, out.message);
  }

  /**
   * Save & Populate when both requests succeed: the save, then the regeneration request; the
   * editor closes and a fresh interval polls the workflow from count 0.
   */
  lemma {:induction false} SaveThenPopulate(s: PopulateState, userId: string, save: Result<Unit, string>, retry: Api.FetchOutcome)
    requires CanSubmit(s) && save.Ok? && retry.Succeeded()
    ensures var r := SavedAndPopulated(s, userId, save, retry);
      var t := s.editing.value;
      && !r.isSaving
      && r.calls == s.calls + [SaveQuestions(t.workflowId, Questions(s)), RetryPopulateCall(t.sessionId, t.workflowId, userId)]
      && r.saveSuccess && !r.showEditModal && r.populateStatus == "Processing workflow data..."
      && r.polling == Some(Poll(s.nextTimer, t.sessionId, t.workflowId, 0))
  {
    var t := s.editing.value;
    var s2 := RetryStarted(SaveStarted(s, t, Questions(s)), t, userId);
    assert s2.calls == s.calls + [SaveQuestions(t.workflowId, Questions(s)), RetryPopulateCall(t.sessionId, t.workflowId, userId)];
    assert SavedAndPopulated(s, userId, save, retry) == PopulateStarted(s2, t);
    PopulateStartedEffect(s2, t);
  }

  /** Save & Populate always ends with `isSaving` false and the save as its first request. */
  lemma {:induction false} SaveComesFirst(s: PopulateState, userId: string, save: Result<Unit, string>, retry: Api.FetchOutcome)
    requires CanSubmit(s)
    ensures var r := SavedAndPopulated(s, userId, save, retry);
      && !r.isSaving
      && |r.calls| > |s.calls| && r.calls[|s.calls|] == SaveQuestions(s.editing.value.workflowId, Questions(s))
  {
    if save.Err? {
      SaveFailureStops(s, userId, save, retry);
    } else if !retry.Succeeded() {
      RetryFailureStops(s, userId, save, retry);
    } else {
      SaveThenPopulate(s, userId, save, retry);
    }
  }

  lemma {:induction false} PopulateStartedEffect(s2: PopulateState, t: EditTarget)
    ensures var r := PopulateStarted(s2, t);
      && !r.isSaving && r.calls == s2.calls && r.saveSuccess == s2.saveSuccess && !r.showEditModal
      && r.populateStatus == "Processing workflow data..."
      && r.polling == Some(Poll(s2.nextTimer, t.sessionId, t.workflowId, 0))
  {
  }

  /** Save & Populate submits one question per entry, each the edit or else the original question. */
  lemma {:induction false} SavedQuestions(s: PopulateState, userId: string, save: Result<Unit, string>, retry: Api.FetchOutcome)
    requires CanSubmit(s)
    ensures var r := SavedAndPopulated(s, userId, save, retry);
      var entries := EntriesOf(s.currentSession.value.jsonToPopulate);
      |r.calls| > |s.calls| && r.calls[|s.calls|].SaveQuestions?
      && |r.calls[|s.calls|].questions| == |entries|
      && forall i :: 0 <= i < |entries| ==>
        r.calls[|s.calls|].questions[i]
          == if entries[i].0 in s.editedQuestions && s.editedQuestions[entries[i].0] != "" then s.editedQuestions[entries[i].0]
             else OriginalQuestion(entries[i].1)
  {
    SaveComesFirst(s, userId, save, retry);
  }

  /**
   * Save & Populate on a session whose `json_to_populate` is still a JSON string saves one
   * question per character: with no edits, as many empty questions as the string is long.
   */
  lemma {:induction false} SavedStringQuestions(s: PopulateState, userId: string, save: Result<Unit, string>, retry: Api.FetchOutcome)
    requires CanSubmit(s) && s.currentSession.value.jsonToPopulate.JsonString?
    ensures var r := SavedAndPopulated(s, userId, save, retry);
      var text := s.currentSession.value.jsonToPopulate.text;
      && |r.calls| > |s.calls| && r.calls[|s.calls|].SaveQuestions?
      && |r.calls[|s.calls|].questions| == |text| > 0
      && forall i :: 0 <= i < |text| ==>
        r.calls[|s.calls|].questions[i] == (if IntToString(i) in s.editedQuestions then s.editedQuestions[IntToString(i)] else "")
    ensures s.editedQuestions == map[] ==>
      SavedAndPopulated(s, userId, save, retry).calls[|s.calls|].questions
        == seq(|s.currentSession.value.jsonToPopulate.text|, _ => "")
  {
    SaveComesFirst(s, userId, save, retry);
    StringQuestions(s.editedQuestions, s.currentSession.value.jsonToPopulate.text);
  }

  /** `startPolling` clears the interval it knows about before creating the new one. */
  lemma {:induction false} StartPollingClearsFirst(s: PopulateState, sessionId: string, workflowId: string)
    ensures var r := PollingStarted(s, sessionId, workflowId);
      && r.timers == s.timers + (if s.polling.Some? then [Cleared(s.polling.value.handle)] else []) + [Started(s.nextTimer)]
      && r.polling == Some(Poll(s.nextTimer, sessionId, workflowId, 0))
  {
  }

  lemma {:induction false} ClearTimerInv(s: PopulateState)
    requires Inv(s)
    ensures Inv(ClearTimer(s)) && ClearTimer(s).polling.None? && ClearTimer(s).nextTimer == s.nextTimer
  {
    if s.polling.Some? {
      var r := ClearTimer(s);
      assert r.timers[..|r.timers| - 1] == s.timers;
    }
  }

  lemma {:induction false} PollingStartedInv(s: PopulateState, sessionId: string, workflowId: string)
    requires Inv(s)
    ensures Inv(PollingStarted(s, sessionId, workflowId))
  {
    ClearTimerInv(s);
    var c := ClearTimer(s);
    var r := PollingStarted(s, sessionId, workflowId);
    assert r.timers[..|r.timers| - 1] == c.timers;
  }

  /** Editing a question never touches the interval. */
  lemma {:induction false} QuestionChangeKeepsOneInterval(s: PopulateState, key: string, value: string)
    requires Inv(s)
    ensures Inv(QuestionChanged(s, key, value))
  {
  }

  /** Opening the editor never touches the interval. */
  lemma {:induction false} OpenedKeepsOneInterval(s: PopulateState, sessionId: string, workflowId: string,
                               sessionData: Option<SessionDetail>, sessions: seq<SessionDetail>)
    requires Inv(s)
    ensures Inv(Opened(s, sessionId, workflowId, sessionData, sessions))
  {
  }

  /** Testing the questions never touches the interval. */
  lemma {:induction false} TestKeepsOneInterval(s: PopulateState, userId: string, test: Result<string, string>)
    requires Inv(s)
    ensures Inv(TestPopulated(s, userId, test))
  {
  }

  /** Closing the editor leaves no interval live. */
  lemma {:induction false} ClosedKeepsOneInterval(s: PopulateState)
    requires Inv(s)
    ensures Inv(Closed(s))
  {
    ClearTimerInv(s.(showEditModal := false, populateStatus := "", populateError := "", saveSuccess := false,
                     editedQuestions := map[]));
  }

  /** Save & Populate keeps at most one interval live: the old one is cleared before the new one starts. */
  lemma {:induction false} SaveKeepsOneInterval(s: PopulateState, userId: string, save: Result<Unit, string>, retry: Api.FetchOutcome)
    requires Inv(s)
    ensures Inv(SavedAndPopulated(s, userId, save, retry))
  {
    var r := SavedAndPopulated(s, userId, save, retry);
    if CanSubmit(s) {
      var t := s.editing.value;
      var s1 := SaveStarted(s, t, Questions(s));
      SameTimersInv(s, s1);
      if save.Err? {
        assert r == Failed(s1, save.error);
        SameTimersInv(s1, r);
      } else {
        var s2 := RetryStarted(s1, t, userId);
        SameTimersInv(s1, s2);
        if Api.SingleRequest("Retry populate failed", retry).Thrown? {
          SameTimersInv(s2, r);
        } else {
          var s3 := s2.(populateStatus := "Processing workflow data...", showEditModal := false);
          SameTimersInv(s2, s3);
          PollingStartedInv(s3, t.sessionId, t.workflowId);
          SameTimersInv(PollingStarted(s3, t.sessionId, t.workflowId), r);
        }
      }
    }
  }

  /** A firing of the interval keeps at most one interval live. */
  lemma {:induction false} TickKeepsOneInterval(s: PopulateState, outcome: PollOutcome)
    requires Inv(s) && s.polling.Some?
    ensures Inv(Ticked(s, outcome))
  {
    var s1 := TickBegin(s);
    assert Inv(s1);
    match outcome {
      case PollFailed(m) =>
        TickFailedInv(s1, m);
      case Statuses(ws) =>
        TickAnsweredInv(s1, FindStatus(ws, s.polling.value.workflowId));
    }
  }

  lemma {:induction false} TickFailedInv(s1: PopulateState, message: string)
    requires Inv(s1) && s1.polling.Some?
    ensures Inv(TickFailed(s1, message))
  {
    var r := TickFailed(s1, message);
    if IsAuthError(message) {
      ClearTimerInv(s1);
      SameTimersInv(ClearTimer(s1), r);
    } else {
      SameTimersInv(s1, r);
    }
  }

  lemma {:induction false} TickAnsweredInv(s1: PopulateState, st: Option<string>)
    requires Inv(s1) && s1.polling.Some?
    ensures Inv(TickAnswered(s1, st))
  {
    var r := TickAnswered(s1, st);
    ClearTimerInv(s1);
    TickAnsweredTimers(s1, st);
    if r.polling.None? {
      SameTimersInv(ClearTimer(s1), r);
    } else {
      SameTimersInv(s1, r);
    }
  }

  /** A firing that reads the statuses either leaves the interval alone or clears it. */
  lemma {:induction false} TickAnsweredTimers(s1: PopulateState, st: Option<string>)
    requires s1.polling.Some?
    ensures var r := TickAnswered(s1, st);
      && r.nextTimer == s1.nextTimer
      && (r.polling.None? ==> r.timers == ClearTimer(s1).timers)
      && (r.polling.Some? ==> r.polling == s1.polling && r.timers == s1.timers)
  {
    StatusReplyEffect(s1, st.Some? && IsCompletion(st.value), st == Some("error"),
                      if st.Some? then ProgressText(st.value) else None);
  }

  /**
   * What a classified status does to the loop: it stops on completion, on failure and on the
   * 100th poll, clearing the interval, and otherwise leaves the interval as it is; it makes no call.
   */
  lemma {:induction false} StatusReplyEffect(s1: PopulateState, done: bool, failed: bool, progress: Option<string>)
    requires s1.polling.Some?
    ensures var r := StatusReply(s1, done, failed, progress);
      && r.nextTimer == s1.nextTimer && r.calls == s1.calls
      && r.polling == (if done || failed || s1.polling.value.count >= MaxPolls then None else s1.polling)
      && r.timers == (if done || failed || s1.polling.value.count >= MaxPolls then ClearTimer(s1).timers else s1.timers)
  {
    var h := Halted(s1);
    assert h.polling.None? && h.timers == ClearTimer(s1).timers && h.nextTimer == s1.nextTimer && h.calls == s1.calls;
    if !done && !failed {
      var s2 := if progress.Some? then s1.(populateStatus := progress.value) else s1;
      assert s2.polling == s1.polling && s2.timers == s1.timers && s2.nextTimer == s1.nextTimer && s2.calls == s1.calls;
      assert Halted(s2).timers == h.timers;
    }
  }

  /** The invariant reads only the interval, the timer events and the next handle. */
  lemma {:induction false} SameTimersInv(s: PopulateState, r: PopulateState)
    requires Inv(s)
    requires r.polling == s.polling && r.timers == s.timers && r.nextTimer == s.nextTimer
    ensures Inv(r)
  {
  }

  // ---------------------------------------------------------------------------------------
  // Properties of the polling loop

  lemma {:induction false} TickFailedEffect(s1: PopulateState, message: string)
    requires s1.polling.Some?
    ensures TickFailed(s1, message).polling == if IsAuthError(message) then None else s1.polling
    ensures TickFailed(s1, message).calls == s1.calls
  {
  }

  lemma {:induction false} TickAnsweredEffect(s1: PopulateState, st: Option<string>)
    requires s1.polling.Some?
    ensures TickAnswered(s1, st).polling ==
      if (st.Some? && (IsCompletion(st.value) || st.value == "error")) || s1.polling.value.count >= MaxPolls then None
      else s1.polling
    ensures TickAnswered(s1, st).calls == s1.calls
  {
    StatusReplyEffect(s1, st.Some? && IsCompletion(st.value), st == Some("error"),
                      if st.Some? then ProgressText(st.value) else None);
  }

  /** A tick keeps the same interval and counts one more poll, unless it stops the loop. */
  lemma {:induction false} TickCounts(s: PopulateState, outcome: PollOutcome)
    requires s.polling.Some?
    ensures var r := Ticked(s, outcome);
      r.polling.Some? ==> r.polling.value == s.polling.value.(count := s.polling.value.count + 1)
    ensures Ticked(s, outcome).calls == s.calls + [WorkflowStatusCall(s.polling.value.sessionId)]
  {
    match outcome {
      case PollFailed(m) => TickFailedEffect(TickBegin(s), m);
      case Statuses(ws) => TickAnsweredEffect(TickBegin(s), FindStatus(ws, s.polling.value.workflowId));
    }
  }

  /**
   * A tick stops the loop exactly when the status request threw an authentication error, or it
   * succeeded and either our workflow reached a final status or this was the 100th poll or later.
   */
  lemma {:induction false} TickStopsWhen(s: PopulateState, outcome: PollOutcome)
    requires s.polling.Some?
    ensures Ticked(s, outcome).polling.None? <==>
      || (outcome.PollFailed? && IsAuthError(outcome.message))
      || (outcome.Statuses? && !Pending(outcome, s.polling.value.workflowId))
      || (outcome.Statuses? && s.polling.value.count + 1 >= MaxPolls)
  {
    match outcome {
      case PollFailed(m) => TickFailedEffect(TickBegin(s), m);
      case Statuses(ws) => TickAnsweredEffect(TickBegin(s), FindStatus(ws, s.polling.value.workflowId));
    }
  }

  /** Final statuses: completion reports success and schedules the reload; `error` reports failure. */
  lemma {:induction false} TickFinalStatus(s: PopulateState, ws: seq<WorkflowStatus>)
    requires s.polling.Some?
    requires FindStatus(ws, s.polling.value.workflowId).Some?
    ensures var st := FindStatus(ws, s.polling.value.workflowId).value;
      var r := Ticked(s, Statuses(ws));
      && (IsCompletion(st) ==>
            r.polling.None? && !r.isPopulating && r.populateStatus == SuccessMessage && r.reloadScheduled
            && r.populateError == s.populateError)
      && (st == "error" ==> r.polling.None? && !r.isPopulating && r.populateError == FailureMessage && r.populateStatus == "")
  {
  }

  /** An authentication error stops the loop and asks for a manual refresh. */
  lemma {:induction false} TickAuthError(s: PopulateState, message: string)
    requires s.polling.Some? && IsAuthError(message)
    ensures var r := Ticked(s, PollFailed(message));
      r.polling.None? && !r.isPopulating && r.populateError == AuthMessage && r.populateStatus == ""
  {
  }

  /** A 401 or 403 answer to the status request is an authentication error: its message names the status. */
  lemma {:induction false} StatusRequestAuthFailureStops(s: PopulateState, status: nat, statusText: string, body: string)
    requires s.polling.Some? && (status == 401 || status == 403)
    ensures var r := Ticked(s, PollFailed(Api.SingleRequest("Get workflow status failed", Api.Reply(status, statusText, body)).message));
      r.polling.None? && r.populateError == AuthMessage
  {
    var m := Api.SingleRequest("Get workflow status failed", Api.Reply(status, statusText, body)).message;
    AuthReplyIsAuthError(status, statusText, body);
    TickFailedAuth(TickBegin(s), m);
  }

  lemma {:induction false} AuthReplyIsAuthError(status: nat, statusText: string, body: string)
    requires status == 401 || status == 403
    ensures IsAuthError(Api.SingleRequest("Get workflow status failed", Api.Reply(status, statusText, body)).message)
  {
    Api.StatusFailureMentionsStatus("Get workflow status failed", status, statusText, body);
    assert NatToString(status) == (if status == 401 then "401" else "403");
  }

  lemma {:induction false} TickFailedAuth(s1: PopulateState, message: string)
    requires s1.polling.Some? && IsAuthError(message)
    ensures TickFailed(s1, message).polling.None? && TickFailed(s1, message).populateError == AuthMessage
  {
  }

  /** Ticks never happen on a stopped loop, so the state stays as it was. */
  lemma {:induction false} TickAllStopped(s: PopulateState, outcomes: seq<PollOutcome>)
    requires s.polling.None?
    ensures TickAll(s, outcomes) == s
  {
    if outcomes != [] {
      TickAllStopped(s, outcomes[..|outcomes| - 1]);
    }
  }

  /**
   * Errors that are not authentication errors never end the loop: however many there are, the
   * interval stays live, counts them, and no error is reported; the timeout is not checked.
   */
  lemma {:induction false} NonAuthErrorsNeverStop(s: PopulateState, outcomes: seq<PollOutcome>)
    requires s.polling.Some?
    requires forall i :: 0 <= i < |outcomes| ==> outcomes[i].PollFailed? && !IsAuthError(outcomes[i].message)
    ensures TickAll(s, outcomes).polling == Some(s.polling.value.(count := s.polling.value.count + |outcomes|))
    ensures TickAll(s, outcomes).populateError == s.populateError
  {
    if outcomes != [] {
      NonAuthErrorsNeverStop(s, outcomes[..|outcomes| - 1]);
    }
  }

  /** Pending responses keep the loop live while fewer than 100 polls have been made. */
  lemma {:induction false} PendingKeepsPolling(s: PopulateState, outcomes: seq<PollOutcome>)
    requires s.polling.Some? && s.polling.value.count + |outcomes| < MaxPolls
    requires forall i :: 0 <= i < |outcomes| ==> Pending(outcomes[i], s.polling.value.workflowId)
    ensures TickAll(s, outcomes).polling == Some(s.polling.value.(count := s.polling.value.count + |outcomes|))
  {
    if outcomes != [] {
      var prefix := outcomes[..|outcomes| - 1];
      var last := outcomes[|outcomes| - 1];
      PendingKeepsPolling(s, prefix);
      var t := TickAll(s, prefix);
      assert TickAll(s, outcomes) == Ticked(t, last);
      TickStopsWhen(t, last);
      TickCounts(t, last);
    }
  }

  /** A pending response to the 100th poll (or a later one) stops the loop with the timeout message. */
  lemma {:induction false} TickTimesOut(s: PopulateState, o: PollOutcome)
    requires s.polling.Some? && s.polling.value.count + 1 >= MaxPolls
    requires Pending(o, s.polling.value.workflowId)
    ensures Ticked(s, o).polling.None? && Ticked(s, o).populateError == TimeoutMessage
  {
    var s1 := TickBegin(s);
    var st := FindStatus(o.entries, s.polling.value.workflowId);
    assert Ticked(s, o) == TickAnswered(s1, st);
    var s2 := if st.Some? && ProgressText(st.value).Some? then s1.(populateStatus := ProgressText(st.value).value) else s1;
    assert TickAnswered(s1, st) == Halted(s2).(populateError := TimeoutMessage, populateStatus := "");
  }

  /** A freshly started loop that only sees pending responses times out on exactly the 100th poll. */
  lemma {:induction false} TimeoutOnHundredthPoll(s: PopulateState, sessionId: string, workflowId: string, outcomes: seq<PollOutcome>)
    requires |outcomes| == MaxPolls
    requires forall i :: 0 <= i < |outcomes| ==> Pending(outcomes[i], workflowId)
    ensures var p := PollingStarted(s, sessionId, workflowId);
      && TickAll(p, outcomes[..MaxPolls - 1]).polling.Some?
      && TickAll(p, outcomes).polling.None?
      && TickAll(p, outcomes).populateError == TimeoutMessage
  {
    var p := PollingStarted(s, sessionId, workflowId);
    var prefix := outcomes[..MaxPolls - 1];
    PendingKeepsPolling(p, prefix);
    assert outcomes[..|outcomes| - 1] == prefix;
    var t := TickAll(p, prefix);
    assert TickAll(p, outcomes) == Ticked(t, outcomes[MaxPolls - 1]);
    TickTimesOut(t, outcomes[MaxPolls - 1]);
  }

  // ---------------------------------------------------------------------------------------
  // Q&A metrics

  datatype QAMetrics = QAMetrics(total: nat, answered: nat, unanswered: int, percent: int, percentColor: string)

  /** The number of entries with a truthy answer. */
  function AnsweredCount(entries: seq<(string, QAItem)>): (n: nat)
    ensures n <= |entries|
  {
    if entries == [] then 0
    else (if Truthy(entries[0].1.answer) then 1 else 0) + AnsweredCount(entries[1..])
  }

  function PercentColor(percent: int): string {
    if percent >= 80 then "bg-green-100 text-green-700"
    else if percent >= 50 then "bg-yellow-100 text-yellow-700"
    else "bg-red-100 text-red-700"
  }

  /** `getQAMetrics(json_to_populate)`. */
  function GetQAMetrics(data: PopulateJson): (m: QAMetrics)
    ensures m.answered <= m.total && m.answered + m.unanswered == m.total
    ensures 0 <= m.percent <= 100
    ensures !data.Entries? ==> m == QAMetrics(0, 0, 0, 0, "")
    ensures data.Entries? ==> m.total == |data.entries| && m.answered == AnsweredCount(data.entries)
    ensures data.Entries? && m.total == 0 ==> m.percent == 0
    ensures data.Entries? && m.total > 0 ==> m.percent == RoundQuotient(100 * m.answered, m.total)
    ensures data.Entries? ==> m.percentColor == PercentColor(m.percent)
  {
    if !data.Entries? then QAMetrics(0, 0, 0, 0, "")
    else
      var total := |data.entries|;
      var answered := AnsweredCount(data.entries);
      var percent := if total > 0 then RoundQuotient(100 * answered, total) else 0;
      PercentBounds(answered, total);
      QAMetrics(total, answered, total - answered, percent, PercentColor(percent))
  }

  lemma {:induction false} PercentBounds(answered: nat, total: nat)
    requires answered <= total
    ensures total > 0 ==> 0 <= RoundQuotient(100 * answered, total) <= 100
  {
    if total > 0 {
      var r := RoundQuotient(100 * answered, total);
      if r < 0 {
        MulMonotone(total, 2 * r + 1, -1);
      }
      if r > 100 {
        MulMonotone(total, 201, 2 * r - 1);
        MulMonotone(total, 2 * answered, 2 * total);
      }
    }
  }

  /** Everything answered is 100% and green; nothing answered is 0% and red. */
  lemma {:induction false} QAMetricsExtremes(entries: seq<(string, QAItem)>)
    requires |entries| > 0
    ensures AnsweredCount(entries) == |entries| ==>
      GetQAMetrics(Entries(entries)).percent == 100 && GetQAMetrics(Entries(entries)).percentColor == "bg-green-100 text-green-700"
    ensures AnsweredCount(entries) == 0 ==>
      GetQAMetrics(Entries(entries)).percent == 0 && GetQAMetrics(Entries(entries)).percentColor == "bg-red-100 text-red-700"
  {
    var n := |entries|;
    if AnsweredCount(entries) == n {
      RoundQuotientUnique(100 * n, n, 100);
    }
    if AnsweredCount(entries) == 0 {
      RoundQuotientUnique(0, n, 0);
    }
  }

  // ---------------------------------------------------------------------------------------
  // Paging of the session table

  const ItemsPerPage: nat := 10
  const MaxVisiblePages: nat := 5

  /** `Math.ceil(n / 10)`. */
  function TotalPages(n: nat): (t: nat)
    ensures (t - 1) * ItemsPerPage < n <= t * ItemsPerPage || (n == 0 && t == 0)
  {
    (n + ItemsPerPage - 1) / ItemsPerPage
  }

  /** `items.slice((page - 1) * 10, page * 10)`. */
  function PageOf<T>(items: seq<T>, page: int): seq<T> {
    Slice(items, (page - 1) * ItemsPerPage, page * ItemsPerPage)
  }

  /** Each page from 1 to the last holds the next ten items (the last page the rest), and is never empty. */
  lemma {:induction false} PageContents<T>(items: seq<T>, page: int)
    requires 1 <= page <= TotalPages(|items|)
    ensures (page - 1) * ItemsPerPage < |items|
    ensures PageOf(items, page) == items[(page - 1) * ItemsPerPage..Min(page * ItemsPerPage, |items|)]
    ensures 1 <= |PageOf(items, page)| <= ItemsPerPage
  {
    SliceRange(items, (page - 1) * ItemsPerPage, page * ItemsPerPage);
  }

  /** Item `i` is shown on page `i / 10 + 1`, at row `i % 10`. */
  lemma {:induction false} PageOfItem<T>(items: seq<T>, i: nat)
    requires i < |items|
    ensures 1 <= i / ItemsPerPage + 1 <= TotalPages(|items|)
    ensures i % ItemsPerPage < |PageOf(items, i / ItemsPerPage + 1)|
    ensures PageOf(items, i / ItemsPerPage + 1)[i % ItemsPerPage] == items[i]
  {
    var p := i / ItemsPerPage + 1;
    PageContents(items, p);
  }

  /** The first and last page button: blocks of five when there are more than five pages. */
  function PageWindow(page: int, totalPages: int): (int, int) {
    var start := if totalPages > MaxVisiblePages then
      (var s := (page - 1) / MaxVisiblePages * MaxVisiblePages + 1; if s > 1 then s else 1)
      else 1;
    var end := if start + MaxVisiblePages - 1 < totalPages then start + MaxVisiblePages - 1 else totalPages;
    (start, end)
  }

  /** The button window holds the current page, at most five buttons, and starts a block of five. */
  lemma {:induction false} PageWindowShowsCurrent(page: int, totalPages: int)
    requires 1 <= page <= totalPages
    ensures var (start, end) := PageWindow(page, totalPages);
      && 1 <= start <= page <= end <= totalPages
      && end - start + 1 <= MaxVisiblePages
      && (start - 1) % MaxVisiblePages == 0
      && (totalPages <= MaxVisiblePages ==> start == 1 && end == totalPages)
  {
  }

  /** `Math.max(1, currentPage - 1)`. */
  function PreviousPage(page: int): int {
    if page - 1 > 1 then page - 1 else 1
  }

  /** `Math.min(totalPages, currentPage + 1)`. */
  function NextPage(page: int, totalPages: int): int {
    if page + 1 < totalPages then page + 1 else totalPages
  }

  /** Previous and Next keep a valid page valid, and move by one page unless at an end. */
  lemma {:induction false} PreviousNextInRange(page: int, totalPages: int)
    requires 1 <= page <= totalPages
    ensures 1 <= PreviousPage(page) <= totalPages && 1 <= NextPage(page, totalPages) <= totalPages
    ensures PreviousPage(page) == if page == 1 then 1 else page - 1
    ensures NextPage(page, totalPages) == if page == totalPages then totalPages else page + 1
  {
  }
}
