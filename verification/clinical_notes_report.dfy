/**
 * The clinical notes report: the center dropdown, the day-range input, the per-clinician data
 * gathered for the selected center and period, and the plain-text report with its index of
 * clinicians. Dates are millisecond timestamps; the locale formatting of dates and times is a
 * parameter (`Formats`).
 */
module ClinicalNotesReport {
  import opened Basics
  import opened Text
  import opened Numbers
  import opened Types
  import opened Collections
  import opened Sorting
  import UserDetailContent

  // ---------------------------------------------------------------------------------------
  // Center options

  datatype CenterOption = CenterOption(value: string, caption: string)

  const AllCentersOption := CenterOption("all", "All Centers")

  /** The truthy `center_name`s of the users, in user order, repetitions included. */
  function CenterNames(users: seq<UserAnalytics>): (names: seq<string>)
    ensures forall i :: 0 <= i < |names| ==> names[i] != ""
  {
    if users == [] then []
    else
      var u := users[|users| - 1];
      CenterNames(users[..|users| - 1]) + (if Truthy(u.centerName) then [u.centerName.value] else [])
  }

  function NameOptions(names: seq<string>): (r: seq<CenterOption>)
    ensures |r| == |names|
    ensures forall i :: 0 <= i < |r| ==> r[i] == CenterOption(names[i], names[i])
  {
    seq(|names|, i requires 0 <= i < |names| => CenterOption(names[i], names[i]))
  }

  /** The dropdown: "All Centers", then every distinct center name once, in sorted order. */
  function CenterOptions(users: seq<UserAnalytics>): (opts: seq<CenterOption>)
    ensures |opts| >= 1 && opts[0] == AllCentersOption
    ensures forall i :: 1 <= i < |opts| ==> opts[i].value == opts[i].caption
  {
    [AllCentersOption] + NameOptions(SortStrings(Distinct(CenterNames(users))))
  }

  lemma {:induction false} CenterNamesMembers(users: seq<UserAnalytics>, name: string)
    ensures name in CenterNames(users) <==> exists i :: 0 <= i < |users| && users[i].centerName == Some(name) && name != ""
  {
    if users != [] {
      var prefix := users[..|users| - 1];
      CenterNamesMembers(prefix, name);
      if name in CenterNames(prefix) {
        var i :| 0 <= i < |prefix| && prefix[i].centerName == Some(name) && name != "";
        assert users[i] == prefix[i];
      }
      if exists i :: 0 <= i < |users| && users[i].centerName == Some(name) && name != "" {
        var i :| 0 <= i < |users| && users[i].centerName == Some(name) && name != "";
        if i < |prefix| { assert prefix[i] == users[i]; }
      }
    }
  }

  /**
   * The options start with "All Centers"; after it come the center names, each both value and
   * label, in ascending order and without repetition.
   */
  lemma {:induction false} CenterOptionsSorted(users: seq<UserAnalytics>)
    ensures var opts := CenterOptions(users);
      && |opts| >= 1 && opts[0] == AllCentersOption
      && (forall i :: 1 <= i < |opts| ==> opts[i].value == opts[i].caption)
      && (forall i, j :: 1 <= i < j < |opts| ==> StrLe(opts[i].value, opts[j].value) && opts[i].value != opts[j].value)
  {
    var d := Distinct(CenterNames(users));
    SortStringsSorted(d);
    DistinctPermutation(d, SortStrings(d));
  }

  /** Every center option after "All Centers" is the truthy `center_name` of some user. */
  lemma {:induction false} CenterOptionsFromUsers(users: seq<UserAnalytics>)
    ensures var opts := CenterOptions(users);
      forall i :: 1 <= i < |opts| ==> exists u :: 0 <= u < |users| && users[u].centerName == Some(opts[i].value) && opts[i].value != ""
  {
    var d := Distinct(CenterNames(users));
    var sorted := SortStrings(d);
    var opts := CenterOptions(users);
    SortStringsSorted(d);
    forall i | 1 <= i < |opts|
      ensures exists u :: 0 <= u < |users| && users[u].centerName == Some(opts[i].value) && opts[i].value != ""
    {
      var name := sorted[i - 1];
      assert opts[i].value == name;
      assert name in multiset(d);
      var j :| 0 <= j < |d| && d[j] == name;
      assert name in CenterNames(users);
      CenterNamesMembers(users, name);
    }
  }

  /** Every truthy `center_name` of a user is offered. */
  lemma {:induction false} CenterOptionsCoverUsers(users: seq<UserAnalytics>)
    ensures var opts := CenterOptions(users);
      forall u :: 0 <= u < |users| && Truthy(users[u].centerName) ==>
        exists i :: 1 <= i < |opts| && opts[i].value == users[u].centerName.value
  {
    var d := Distinct(CenterNames(users));
    var sorted := SortStrings(d);
    var opts := CenterOptions(users);
    forall u | 0 <= u < |users| && Truthy(users[u].centerName)
      ensures exists i :: 1 <= i < |opts| && opts[i].value == users[u].centerName.value
    {
      var name := users[u].centerName.value;
      CenterNamesMembers(users, name);
      assert name in d;
      assert name in multiset(sorted);
      var k :| 0 <= k < |sorted| && sorted[k] == name;
      assert opts[k + 1].value == name;
    }
  }

  // ---------------------------------------------------------------------------------------
  // Users, period and sessions

  /** The users of the selected center (every user for "all"), sorted by email. */
  function SelectedUsers(users: seq<UserAnalytics>, selected: string): (r: seq<UserAnalytics>)
    ensures |r| <= |users|
    ensures selected == "all" ==> multiset(r) == multiset(users)
  {
    var filtered := if selected == "all" then users else Filter(users, (u: UserAnalytics) => u.centerName == Some(selected));
    SortByText(filtered, (u: UserAnalytics) => u.email)
  }

  /**
   * "All" keeps every user; any other choice keeps exactly the users of that center. Either way
   * the result is in email order and no user is added, lost or duplicated.
   */
  lemma {:induction false} SelectedUsersSpec(users: seq<UserAnalytics>, selected: string)
    ensures var r := SelectedUsers(users, selected);
      && SortedByText(r, (u: UserAnalytics) => u.email)
      && (selected == "all" ==> multiset(r) == multiset(users))
      && (selected != "all" ==> multiset(r) == multiset(Filter(users, (u: UserAnalytics) => u.centerName == Some(selected))))
      && (selected != "all" ==> forall i :: 0 <= i < |r| ==> r[i].centerName == Some(selected))
  {
    var r := SelectedUsers(users, selected);
    SortByTextSorted(if selected == "all" then users else Filter(users, (u: UserAnalytics) => u.centerName == Some(selected)),
                     (u: UserAnalytics) => u.email);
    if selected != "all" {
      var f := Filter(users, (u: UserAnalytics) => u.centerName == Some(selected));
      forall i | 0 <= i < |r| ensures r[i].centerName == Some(selected) {
        assert r[i] in multiset(f);
      }
    }
  }

  lemma {:induction false} SelectedUsersSorted(users: seq<UserAnalytics>, selected: string)
    ensures var r := SelectedUsers(users, selected);
      forall i, j :: 0 <= i < j < |r| ==> StrLe(r[i].email, r[j].email)
  {
    SortByTextSorted(if selected == "all" then users else Filter(users, (u: UserAnalytics) => u.centerName == Some(selected)),
                     (u: UserAnalytics) => u.email);
  }

  const MaxDaysRange := 365

  /** The day-range input: `parseInt` of the typed text, accepted only from 1 to 365. */
  function DaysRangeAfterInput(current: int, input: string): (r: int)
    ensures r == current || 1 <= r <= MaxDaysRange
    ensures 1 <= current <= MaxDaysRange ==> 1 <= r <= MaxDaysRange
  {
    match ParseInt(input)
    case Some(v) => if v > 0 && v <= MaxDaysRange then v else current
    case None => current
  }

  /** Typing the decimal digits of a number from 1 to 365 selects it; anything else outside that range is ignored. */
  lemma {:induction false} DaysRangeAccepts(current: int, days: nat)
    ensures DaysRangeAfterInput(current, NatToString(days)) == if 1 <= days <= MaxDaysRange then days else current
  {
    ParseIntOfNatToString(days);
  }

  /** `startDate.setDate(startDate.getDate() - daysRange)`, for a day of 24 hours. */
  function WindowStart(now: int, days: int): int {
    now - days * MsPerDay
  }

  /** Some space-separated word of the lowercased patient name is exactly `test`. */
  predicate IsTestPatient(patientName: string) {
    "test" in Split(ToLower(patientName), ' ')
  }

  /** `John Test` is a test patient; `Testing` and `test-x` are not. */
  lemma {:induction false} TestWordExcluded()
    ensures IsTestPatient("John Test")
  {
    LowerWords("John", "Test");
    assert ToLower("John") == "john" && ToLower("Test") == "test";
    assert "John Test" == "John" + [' '] + "Test";
    SecondWord("john", "test", ' ');
  }

  lemma {:induction false} LowerWords(a: string, b: string)
    ensures ToLower(a + [' '] + b) == ToLower(a) + [' '] + ToLower(b)
  {
    ToLowerAppend(a + [' '], b);
    ToLowerAppend(a, [' ']);
  }

  /** The word after the only separator is one of the split's parts. */
  lemma {:induction false} SecondWord(first: string, second: string, sep: char)
    requires sep !in first && sep !in second
    ensures second in Split(first + [sep] + second, sep)
  {
    SplitAround(first, second, sep);
    SplitWithout(second, sep);
    assert Split(first + [sep] + second, sep)[1] == second;
  }

  lemma {:induction false} LongerWordKept()
    ensures !IsTestPatient("Testing")
  {
    var lower := ToLower("Testing");
    assert lower == "testing";
    SplitWithout("testing", ' ');
  }

  lemma {:induction false} HyphenatedWordKept()
    ensures !IsTestPatient("test-x")
  {
    var lower := ToLower("test-x");
    assert lower == "test-x";
    SplitWithout("test-x", ' ');
  }

  /** `json_to_populate` is an object with at least one truthy answer. */
  predicate HasAnswers(json: PopulateJson) {
    json.Entries? && exists i :: 0 <= i < |json.entries| && Truthy(json.entries[i].1.answer)
  }

  lemma {:induction false} HasAnswersCount(json: PopulateJson)
    ensures HasAnswers(json) <==> UserDetailContent.AnsweredCount(ObjectEntries(json)) > 0
  {
    if json.Entries? {
      AnsweredCountPositive(json.entries);
    }
  }

  lemma {:induction false} AnsweredCountPositive(entries: seq<(string, QAItem)>)
    ensures UserDetailContent.AnsweredCount(entries) > 0 <==> exists i :: 0 <= i < |entries| && Truthy(entries[i].1.answer)
  {
    if entries != [] {
      AnsweredCountPositive(entries[1..]);
      if exists i :: 0 <= i < |entries| && Truthy(entries[i].1.answer) {
        var i :| 0 <= i < |entries| && Truthy(entries[i].1.answer);
        if i > 0 { assert entries[1..][i - 1] == entries[i]; }
      }
      if exists i :: 0 <= i < |entries[1..]| && Truthy(entries[1..][i].1.answer) {
        var i :| 0 <= i < |entries[1..]| && Truthy(entries[1..][i].1.answer);
        assert entries[i + 1] == entries[1..][i];
      }
    }
  }

  lemma {:induction false} AnsweredCountSnoc(entries: seq<(string, QAItem)>, j: nat)
    requires j < |entries|
    ensures UserDetailContent.AnsweredCount(entries[..j + 1])
      == UserDetailContent.AnsweredCount(entries[..j]) + (if Truthy(entries[j].1.answer) then 1 else 0)
  {
    if j > 0 {
      AnsweredCountSnoc(entries[1..], j - 1);
      assert entries[..j + 1][1..] == entries[1..][..j];
      assert entries[..j][1..] == entries[1..][..j - 1];
    }
  }

  /** A session counts for the report: in the period, not a test patient, with some answer. */
  predicate Reportable(s: SessionDetail, start: int, end: int) {
    start <= s.createdAt <= end && !IsTestPatient(s.patientName) && HasAnswers(s.jsonToPopulate)
  }

  function InPeriod(sessions: seq<SessionDetail>, start: int, end: int): seq<SessionDetail> {
    Filter(sessions, (s: SessionDetail) => start <= s.createdAt <= end)
  }

  function ValidSessions(sessions: seq<SessionDetail>, start: int, end: int): seq<SessionDetail> {
    Filter(InPeriod(sessions, start, end),
           (s: SessionDetail) => !IsTestPatient(s.patientName) && HasAnswers(s.jsonToPopulate))
  }

  /**
   * The two passes keep exactly the reportable sessions, in their original order: they are one
   * filter by `Reportable`, so each reportable session is kept as often as it is listed and no
   * other is kept.
   */
  lemma {:induction false} ValidSessionsSpec(sessions: seq<SessionDetail>, start: int, end: int)
    ensures ValidSessions(sessions, start, end) == Filter(sessions, (s: SessionDetail) => Reportable(s, start, end))
    ensures var v := ValidSessions(sessions, start, end);
      && (forall i :: 0 <= i < |v| ==> Reportable(v[i], start, end) && v[i] in sessions)
      && (forall i :: 0 <= i < |sessions| && Reportable(sessions[i], start, end) ==> sessions[i] in v)
      && (forall s :: multiset(v)[s] == if Reportable(s, start, end) then multiset(sessions)[s] else 0)
  {
    var reportable := (s: SessionDetail) => Reportable(s, start, end);
    FilterFilter(sessions, (s: SessionDetail) => start <= s.createdAt <= end,
                 (s: SessionDetail) => !IsTestPatient(s.patientName) && HasAnswers(s.jsonToPopulate), reportable);
    forall s ensures multiset(Filter(sessions, reportable))[s] == if Reportable(s, start, end) then multiset(sessions)[s] else 0 {
      FilterCount(sessions, reportable, s);
    }
  }

  /** The kept sessions of a concatenation are those of each part, in order. */
  lemma {:induction false} ValidSessionsConcat(a: seq<SessionDetail>, b: seq<SessionDetail>, start: int, end: int)
    ensures ValidSessions(a + b, start, end) == ValidSessions(a, start, end) + ValidSessions(b, start, end)
  {
    var reportable := (s: SessionDetail) => Reportable(s, start, end);
    ValidSessionsSpec(a + b, start, end);
    ValidSessionsSpec(a, start, end);
    ValidSessionsSpec(b, start, end);
    FilterConcat(a, b, reportable);
  }

  /** The answered questions of the kept sessions, summed. */
  function AnsweredTotal(sessions: seq<SessionDetail>): nat {
    if sessions == [] then 0
    else
      var last := sessions[|sessions| - 1];
      AnsweredTotal(sessions[..|sessions| - 1])
        + UserDetailContent.AnsweredCount(ObjectEntries(last.jsonToPopulate))
  }

  /** One clinician's section of the report. */
  datatype ClinicianData = ClinicianData(email: string, centerName: string, sessions: seq<SessionDetail>, totalAnsweredQuestions: nat)

  /**
   * The data for one user given the outcome of fetching their sessions (`None` when the fetch
   * threw): the email, the center or `''`, the kept sessions and their answered questions.
   */
  function ClinicianOf(user: UserAnalytics, fetched: Option<seq<SessionDetail>>, start: int, end: int): ClinicianData {
    match fetched
    case None => ClinicianData(user.email, user.centerName.GetOr(""), [], 0)
    case Some(sessions) =>
      var valid := ValidSessions(sessions, start, end);
      ClinicianData(user.email, user.centerName.GetOr(""), valid, AnsweredTotal(valid))
  }

  /** A user whose sessions could not be fetched is still listed, with no sessions and no answers. */
  lemma {:induction false} FailedFetchListed(user: UserAnalytics, start: int, end: int)
    ensures var c := ClinicianOf(user, None, start, end);
      c.email == user.email && c.sessions == [] && c.totalAnsweredQuestions == 0
  {
  }

  /** Only sessions with answers are kept, so a clinician with sessions has answered questions. */
  lemma {:induction false} SessionsMeanAnswers(sessions: seq<SessionDetail>)
    requires forall i :: 0 <= i < |sessions| ==> HasAnswers(sessions[i].jsonToPopulate)
    ensures AnsweredTotal(sessions) >= |sessions|
  {
    if sessions != [] {
      SessionsMeanAnswers(sessions[..|sessions| - 1]);
      HasAnswersCount(sessions[|sessions| - 1].jsonToPopulate);
    }
  }

  function Clinicians(users: seq<UserAnalytics>, sessionsOf: string -> Option<seq<SessionDetail>>, start: int, end: int)
    : (r: seq<ClinicianData>)
    ensures |r| == |users|
  {
    seq(|users|, i requires 0 <= i < |users| => ClinicianOf(users[i], sessionsOf(users[i].userId), start, end))
  }

  // ---------------------------------------------------------------------------------------
  // The text report

  /** Locale formatting: `toLocaleDateString` and `toLocaleTimeString` of a timestamp. */
  datatype Formats = Formats(date: int -> string, time: int -> string, iso: int -> string)

  const IndexRule := "=================="

  function Header(center: string, start: int, end: int, days: int, fmt: Formats): string {
    "CLINICAL NOTES REPORT\n====================\nCenter: " + (if center == "all" then "All Centers" else center)
    + "\nDate Range: " + fmt.date(start) + " - " + fmt.date(end) + " (Last " + IntToString(days) + " days)"
    + "\nGenerated: " + fmt.date(end) + " at " + fmt.time(end) + "\n\n"
  }

  function IndexHeading(): string {
    "INDEX OF CLINICIANS" + "\n" + IndexRule + "\n"
  }

  function PlaceholderLines(n: nat): (r: seq<string>)
    ensures |r| == n
  {
    seq(n, i requires 0 <= i < n => NatToString(i + 1) + ". ")
  }

  /** The numbered placeholder lines reserved for the index, then a blank line. */
  function Placeholder(n: nat): string {
    Join(PlaceholderLines(n), "\n") + "\n\n"
  }

  function SectionRule(): string {
    Repeat('=', 50) + "\n\n"
  }

  function Preamble(n: nat, center: string, start: int, end: int, days: int, fmt: Formats): string {
    Header(center, start, end, days, fmt) + IndexHeading() + Placeholder(n) + SectionRule()
  }

  function Heading(c: ClinicianData): string {
    "CLINICIAN: " + c.email
  }

  /** The center line, when the clinician has a center. */
  function CenterLine(c: ClinicianData): string {
    if c.centerName != "" then "Center: " + c.centerName + "\n" else ""
  }

  function Summary(c: ClinicianData): string {
    "Sessions in Period: " + NatToString(|c.sessions|) + "\nTotal Answered Questions: "
    + NatToString(c.totalAnsweredQuestions) + "\n\n"
  }

  /** The question shown for an answer: the question text, else the processed text, else `Question <key>`. */
  function QuestionLabel(key: string, item: QAItem): string {
    if Truthy(item.questionText) then item.questionText.value
    else if Truthy(item.processedQuestionText) then item.processedQuestionText.value
    else "Question " + key
  }

  /** The Q&A pairs of the entries that have an answer. */
  function QAPairs(entries: seq<(string, QAItem)>): string {
    if entries == [] then ""
    else
      var (key, item) := entries[0];
      (if Truthy(item.answer) then "Q: " + QuestionLabel(key, item) + "\nA: " + item.answer.value + "\n\n" else "")
      + QAPairs(entries[1..])
  }

  function SessionHeader(s: SessionDetail, fmt: Formats): string {
    Repeat('-', 50) + "\nDate: " + fmt.date(s.createdAt) + " - " + fmt.time(s.createdAt)
    + "\nPatient: " + s.patientName + "\nWorkflow: " + s.workflowName + "\n\n"
  }

  function SessionText(s: SessionDetail, fmt: Formats): string {
    SessionHeader(s, fmt) + QAPairs(ObjectEntries(s.jsonToPopulate))
  }

  function SessionTexts(sessions: seq<SessionDetail>, fmt: Formats): (r: seq<string>)
    ensures |r| == |sessions|
  {
    seq(|sessions|, i requires 0 <= i < |sessions| => SessionText(sessions[i], fmt))
  }

  function NoSessionsText(c: ClinicianData, days: int): string {
    if |c.sessions| == 0 then "No sessions in the last " + IntToString(days) + " days.\n\n" else ""
  }

  /** What follows a clinician's heading line: the center, a blank line, the summary, the sessions. */
  function BlockTail(c: ClinicianData, days: int, fmt: Formats): string {
    CenterLine(c) + "\n" + Summary(c) + Concat(SessionTexts(c.sessions, fmt)) + NoSessionsText(c, days) + "\n"
  }

  /** Everything written for one clinician. */
  function Block(c: ClinicianData, days: int, fmt: Formats): string {
    Heading(c) + "\n" + BlockTail(c, days, fmt)
  }

  function BlockTexts(cs: seq<ClinicianData>, days: int, fmt: Formats): (r: seq<string>)
    ensures |r| == |cs|
  {
    seq(|cs|, i requires 0 <= i < |cs| => Block(cs[i], days, fmt))
  }

  function Blocks(cs: seq<ClinicianData>, days: int, fmt: Formats): string {
    Concat(BlockTexts(cs, days, fmt))
  }

  /** The line (counted from 1) on which clinician `k`'s section starts. */
  function LineOf(pre: string, cs: seq<ClinicianData>, days: int, fmt: Formats, k: nat): nat
    requires k <= |cs|
  {
    1 + Count(pre + Blocks(cs[..k], days, fmt), '\n')
  }

  datatype IndexEntry = IndexEntry(name: string, lineNumber: nat)

  function IndexEntries(pre: string, cs: seq<ClinicianData>, days: int, fmt: Formats): (r: seq<IndexEntry>)
    ensures |r| == |cs|
  {
    seq(|cs|, k requires 0 <= k < |cs| => IndexEntry(cs[k].email, LineOf(pre, cs, days, fmt, k)))
  }

  /** `i. email ....... Line n`, with at least one dot and the dots padding the email to 50 characters. */
  function IndexLine(i: nat, e: IndexEntry): string {
    NatToString(i + 1) + ". " + e.name + " " + Repeat('.', if 50 - |e.name| > 1 then 50 - |e.name| else 1)
    + " Line " + NatToString(e.lineNumber)
  }

  function IndexLines(entries: seq<IndexEntry>): (r: seq<string>)
    ensures |r| == |entries|
  {
    seq(|entries|, i requires 0 <= i < |entries| => IndexLine(i, entries[i]))
  }

  /** The index of the line equal to `target` that comes first. */
  function FirstLine(lines: seq<string>, target: string): (r: Option<nat>)
    ensures r.Some? ==> r.value < |lines| && lines[r.value] == target
    ensures r.Some? ==> forall j :: 0 <= j < r.value ==> lines[j] != target
    ensures r.None? ==> forall j :: 0 <= j < |lines| ==> lines[j] != target
  {
    if lines == [] then None
    else if lines[0] == target then Some(0)
    else match FirstLine(lines[1..], target)
      case None => None
      case Some(j) => Some(j + 1)
  }

  /**
   * The placeholder lines after the first `==================` line replaced by the lines of the
   * final index (`lines.splice(start, n, ...index.split('\n'))`, then `join('\n')`).
   */
  function Spliced(content: string, finalIndex: string, n: nat): string {
    var lines := Split(content, '\n');
    match FirstLine(lines, IndexRule)
    case None => content
    case Some(i) =>
      var start := i + 1;
      Join(lines[..start] + Split(finalIndex, '\n') + lines[Min(start + n, |lines|)..], "\n")
  }

  /** The report as the corrected line count produces it. */
  function TextReport(cs: seq<ClinicianData>, center: string, start: int, end: int, days: int, fmt: Formats): string {
    var pre := Preamble(|cs|, center, start, end, days, fmt);
    Spliced(pre + Blocks(cs, days, fmt), Join(IndexLines(IndexEntries(pre, cs, days, fmt)), "\n"), |cs|)
  }

  // ---------------------------------------------------------------------------------------
  // The line numbers as the source counts them

  /**
   * The line number the source records for clinician `k`: it adds `header.split('\n').length`
   * (one more than the header's line breaks), 3 for the two-line index heading and
   * `n + 2` for the placeholder (which holds `n + 1` line breaks); every later increment is the
   * number of line breaks written.
   */
  function SourceLineOf(cs: seq<ClinicianData>, center: string, start: int, end: int, days: int, fmt: Formats, k: nat): nat
    requires k <= |cs|
  {
    var header := Header(center, start, end, days, fmt);
    1 + |Split(header, '\n')| + 3 + (|cs| + 2) + 2 + Count(Blocks(cs[..k], days, fmt), '\n')
  }

  lemma {:induction false} NoBreakInNumber(n: nat)
    ensures '\n' !in NatToString(n)
  {
  }

  lemma {:induction false} NoBreakInRepeat(c: char, n: nat)
    requires c != '\n'
    ensures '\n' !in Repeat(c, n)
  {
  }

  lemma {:induction false} CountNoBreak(s: string)
    requires '\n' !in s
    ensures Count(s, '\n') == 0
  {
    CountAbsent(s, '\n');
  }

  /** The lines in a join of lines that hold no line break. */
  lemma {:induction false} CountJoin(parts: seq<string>)
    requires forall i :: 0 <= i < |parts| ==> '\n' !in parts[i]
    ensures Count(Join(parts, "\n"), '\n') == if parts == [] then 0 else |parts| - 1
  {
    if parts != [] {
      SplitJoin(parts, '\n');
    }
  }

  lemma {:induction false} CountIndexHeading()
    ensures Count(IndexHeading(), '\n') == 2
  {
    var title := "INDEX OF CLINICIANS";
    LineBreakCount(title);
    LineBreakCount(IndexRule);
    CountConcat(title + "\n", IndexRule + "\n", '\n');
    assert IndexHeading() == (title + "\n") + (IndexRule + "\n");
  }

  /** A line without a break, followed by one. */
  lemma {:induction false} LineBreakCount(line: string)
    requires '\n' !in line
    ensures Count(line + "\n", '\n') == 1
  {
    CountConcat(line, "\n", '\n');
    CountAbsent(line, '\n');
  }

  lemma {:induction false} CountPlaceholder(n: nat)
    ensures Count(Placeholder(n), '\n') == if n == 0 then 2 else n + 1
  {
    var parts := PlaceholderLines(n);
    forall i | 0 <= i < n ensures '\n' !in parts[i] {
      NoBreakInNumber(i + 1);
    }
    CountJoin(parts);
    CountConcat(Join(parts, "\n"), "\n\n", '\n');
  }

  lemma {:induction false} CountSectionRule()
    ensures Count(SectionRule(), '\n') == 2
  {
    CountConcat(Repeat('=', 50), "\n\n", '\n');
    CountNoBreak(Repeat('=', 50));
  }

  lemma {:induction false} CountPreamble(n: nat, center: string, start: int, end: int, days: int, fmt: Formats)
    ensures var h := Count(Header(center, start, end, days, fmt), '\n');
      Count(Preamble(n, center, start, end, days, fmt), '\n') == h + 2 + (if n == 0 then 2 else n + 1) + 2
  {
    var header := Header(center, start, end, days, fmt);
    CountConcat(header + IndexHeading() + Placeholder(n), SectionRule(), '\n');
    CountConcat(header + IndexHeading(), Placeholder(n), '\n');
    CountConcat(header, IndexHeading(), '\n');
    CountIndexHeading();
    CountPlaceholder(n);
    CountSectionRule();
  }

  /**
   * With at least one clinician, every line number the source writes into the index is three
   * more than the line on which that clinician's section starts.
   */
  lemma {:induction false} SourceIndexOffByThree(cs: seq<ClinicianData>, center: string, start: int, end: int, days: int, fmt: Formats, k: nat)
    requires k < |cs|
    ensures var pre := Preamble(|cs|, center, start, end, days, fmt);
      SourceLineOf(cs, center, start, end, days, fmt, k) == LineOf(pre, cs, days, fmt, k) + 3
  {
    var pre := Preamble(|cs|, center, start, end, days, fmt);
    CountPreamble(|cs|, center, start, end, days, fmt);
    CountConcat(pre, Blocks(cs[..k], days, fmt), '\n');
  }

  // ---------------------------------------------------------------------------------------
  // Where each clinician's section starts

  /** Line `number` (counted from 1) of `text` is `line`. */
  predicate LineAt(text: string, number: int, line: string) {
    var lines := Split(text, '\n');
    1 <= number <= |lines| && lines[number - 1] == line
  }

  predicate EndsWithBreak(s: string) {
    s != [] && s[|s| - 1] == '\n'
  }

  lemma {:induction false} BlockTextsPrefix(cs: seq<ClinicianData>, days: int, fmt: Formats, k: nat)
    requires k <= |cs|
    ensures BlockTexts(cs[..k], days, fmt) == BlockTexts(cs, days, fmt)[..k]
  {
  }

  lemma {:induction false} BlocksEndWithBreak(cs: seq<ClinicianData>, days: int, fmt: Formats)
    requires cs != []
    ensures EndsWithBreak(Blocks(cs, days, fmt))
  {
    var texts := BlockTexts(cs, days, fmt);
    var c := cs[|cs| - 1];
    BreakAtEnd(Heading(c) + "\n" + CenterLine(c) + "\n" + Summary(c) + Concat(SessionTexts(c.sessions, fmt)) + NoSessionsText(c, days));
    ConcatEndsWithBreak(texts);
  }

  lemma {:induction false} BreakAtEnd(s: string)
    ensures EndsWithBreak(s + "\n")
  {
  }

  lemma {:induction false} ConcatEndsWithBreak(parts: seq<string>)
    requires parts != [] && EndsWithBreak(parts[|parts| - 1])
    ensures EndsWithBreak(Concat(parts))
  {
    assert Concat(parts) == Concat(parts[..|parts| - 1]) + parts[|parts| - 1];
  }

  /** The blocks of all clinicians: those before `k`, then `k`'s, then those after. */
  lemma {:induction false} BlocksAt(cs: seq<ClinicianData>, days: int, fmt: Formats, k: nat)
    requires k < |cs|
    ensures Blocks(cs, days, fmt)
      == Blocks(cs[..k], days, fmt) + Block(cs[k], days, fmt) + Concat(BlockTexts(cs, days, fmt)[k + 1..])
  {
    BlockTextsPrefix(cs, days, fmt, k);
    ConcatAt(BlockTexts(cs, days, fmt), k);
  }

  /**
   * The report before the index is written: clinician `k`'s section starts right after a line
   * break, with its heading as a whole line.
   */
  lemma {:induction false} HeadingLine(pre: string, cs: seq<ClinicianData>, days: int, fmt: Formats, k: nat)
    requires k < |cs| && EndsWithBreak(pre) && '\n' !in cs[k].email
    ensures LineAt(pre + Blocks(cs, days, fmt), LineOf(pre, cs, days, fmt, k), Heading(cs[k]))
  {
    var c := cs[k];
    var front := Blocks(cs[..k], days, fmt);
    FrontEndsWithBreak(cs, days, fmt, k);
    BlocksAt(cs, days, fmt, k);
    NoBreakInHeading(c);
    LineAfterSections(pre, front, Heading(c), BlockTail(c, days, fmt), Concat(BlockTexts(cs, days, fmt)[k + 1..]));
  }

  lemma {:induction false} FrontEndsWithBreak(cs: seq<ClinicianData>, days: int, fmt: Formats, k: nat)
    requires k <= |cs|
    ensures var front := Blocks(cs[..k], days, fmt); front == [] || EndsWithBreak(front)
  {
    if k > 0 {
      BlocksEndWithBreak(cs[..k], days, fmt);
    } else {
      assert BlockTexts(cs[..k], days, fmt) == [];
    }
  }

  lemma {:induction false} NoBreakInHeading(c: ClinicianData)
    requires '\n' !in c.email
    ensures '\n' !in Heading(c)
  {
  }

  /** The heading that opens a section placed after complete lines. */
  lemma {:induction false} LineAfterSections(pre: string, front: string, heading: string, blockTail: string, rest: string)
    requires EndsWithBreak(pre) && (front == [] || EndsWithBreak(front)) && '\n' !in heading
    ensures var lines := Split(pre + (front + (heading + "\n" + blockTail) + rest), '\n');
      Count(pre + front, '\n') < |lines| && lines[Count(pre + front, '\n')] == heading
  {
    assert pre + (front + (heading + "\n" + blockTail) + rest) == (pre + front) + (heading + ['\n'] + (blockTail + rest));
    assert EndsWithBreak(pre + front);
    LineAfterBreak(pre + front, heading, blockTail + rest, '\n');
  }

  /** The line after the header and the index title is the one the index search looks for. */
  lemma {:induction false} IndexRuleLine(cs: seq<ClinicianData>, center: string, start: int, end: int, days: int, fmt: Formats)
    ensures var pre := Preamble(|cs|, center, start, end, days, fmt);
      LineAt(pre + Blocks(cs, days, fmt), Count(Header(center, start, end, days, fmt), '\n') + 2, IndexRule)
  {
    var header := Header(center, start, end, days, fmt);
    var rest := Placeholder(|cs|) + SectionRule() + Blocks(cs, days, fmt);
    PreambleParts(cs, center, start, end, days, fmt);
    HeaderEndsWithBreak(center, start, end, days, fmt);
    NoBreakInTitle();
    RuleAfterTitle(header, "INDEX OF CLINICIANS", IndexRule, rest);
  }

  lemma {:induction false} PreambleParts(cs: seq<ClinicianData>, center: string, start: int, end: int, days: int, fmt: Formats)
    ensures Preamble(|cs|, center, start, end, days, fmt) + Blocks(cs, days, fmt)
      == Header(center, start, end, days, fmt) + IndexHeading() + (Placeholder(|cs|) + SectionRule() + Blocks(cs, days, fmt))
  {
    Regroup(Header(center, start, end, days, fmt), IndexHeading(), Placeholder(|cs|), SectionRule(), Blocks(cs, days, fmt));
  }

  lemma {:induction false} Regroup(a: string, b: string, c: string, d: string, e: string)
    ensures a + b + c + d + e == a + b + (c + d + e)
  {
  }

  lemma {:induction false} HeaderEndsWithBreak(center: string, start: int, end: int, days: int, fmt: Formats)
    ensures EndsWithBreak(Header(center, start, end, days, fmt))
  {
  }

  lemma {:induction false} NoBreakInTitle()
    ensures '\n' !in "INDEX OF CLINICIANS" && '\n' !in IndexRule
  {
  }

  /** A title line and a rule line after complete lines: the rule is the second of them. */
  lemma {:induction false} RuleAfterTitle(header: string, title: string, rule: string, rest: string)
    requires EndsWithBreak(header) && '\n' !in title && '\n' !in rule
    ensures var lines := Split(header + (title + "\n" + rule + "\n") + rest, '\n');
      Count(header, '\n') + 1 < |lines| && lines[Count(header, '\n') + 1] == rule
  {
    assert header + (title + "\n" + rule + "\n") + rest == header + (title + ['\n'] + (rule + ['\n'] + rest));
    SplitAfterLine(header, title + ['\n'] + (rule + ['\n'] + rest), '\n');
    SplitAround(title, rule + ['\n'] + rest, '\n');
    SplitAround(rule, rest, '\n');
  }

  lemma {:induction false} NoBreakInIndexLine(i: nat, e: IndexEntry)
    requires '\n' !in e.name
    ensures '\n' !in IndexLine(i, e)
  {
    NoBreakInNumber(i + 1);
    NoBreakInNumber(e.lineNumber);
    NoBreakInRepeat('.', if 50 - |e.name| > 1 then 50 - |e.name| else 1);
  }

  /** With emails free of line breaks, the final index splits back into one line per clinician. */
  lemma {:induction false} IndexLinesSplit(entries: seq<IndexEntry>)
    requires |entries| >= 1
    requires forall i :: 0 <= i < |entries| ==> '\n' !in entries[i].name
    ensures Split(Join(IndexLines(entries), "\n"), '\n') == IndexLines(entries)
  {
    var lines := IndexLines(entries);
    forall i | 0 <= i < |lines| ensures '\n' !in lines[i] {
      NoBreakInIndexLine(i, entries[i]);
    }
    SplitJoin(lines, '\n');
  }

  /**
   * Replacing `n` lines from `first` by `n` others and joining again leaves every later line
   * where it was.
   */
  lemma {:induction false} SpliceKeepsLater(lines: seq<string>, first: nat, idx: seq<string>, n: nat, number: nat)
    requires first + n < number <= |lines| && |idx| == n
    requires forall i :: 0 <= i < |lines| ==> '\n' !in lines[i]
    requires forall i :: 0 <= i < |idx| ==> '\n' !in idx[i]
    ensures LineAt(Join(lines[..first] + idx + lines[first + n..], "\n"), number, lines[number - 1])
  {
    var spliced := lines[..first] + idx + lines[first + n..];
    forall i | 0 <= i < |spliced| ensures '\n' !in spliced[i] {
      if i < first {
        assert spliced[i] == lines[i];
      } else if i < first + n {
        assert spliced[i] == idx[i - first];
      } else {
        assert spliced[i] == lines[i];
      }
    }
    SplitJoin(spliced, '\n');
    assert spliced[number - 1] == lines[number - 1];
  }

  /** Splicing the index in below the rule line leaves every line after the placeholder where it was. */
  lemma {:induction false} SplicedKeepsLater(content: string, finalIndex: string, n: nat, number: nat)
    requires var lines := Split(content, '\n'); var found := FirstLine(lines, IndexRule);
      found.Some? && found.value + 2 + n <= number <= |lines|
    requires |Split(finalIndex, '\n')| == n
    ensures LineAt(Spliced(content, finalIndex, n), number, Split(content, '\n')[number - 1])
  {
    var lines := Split(content, '\n');
    var first := FirstLine(lines, IndexRule).value + 1;
    var idx := Split(finalIndex, '\n');
    SplicedUnfold(content, finalIndex, n);
    assert Min(first + n, |lines|) == first + n;
    var joined := Join(lines[..first] + idx + lines[first + n..], "\n");
    assert Spliced(content, finalIndex, n) == joined;
    SpliceKeepsLater(lines, first, idx, n, number);
  }

  /** `Spliced` when the search finds the rule line. */
  lemma {:induction false} SplicedUnfold(content: string, finalIndex: string, n: nat)
    requires FirstLine(Split(content, '\n'), IndexRule).Some?
    ensures var lines := Split(content, '\n');
      var first := FirstLine(lines, IndexRule).value + 1;
      Spliced(content, finalIndex, n) == Join(lines[..first] + Split(finalIndex, '\n') + lines[Min(first + n, |lines|)..], "\n")
  {
  }

  /**
   * A line below the first `==================` line and the `n` lines after it keeps its
   * number when the index of `n` lines is spliced in.
   */
  lemma {:induction false} SplicedKeepsLine(content: string, finalIndex: string, n: nat, rule: int, line: int, heading: string)
    requires LineAt(content, rule, IndexRule) && LineAt(content, line, heading) && rule + n < line
    requires |Split(finalIndex, '\n')| == n
    ensures LineAt(Spliced(content, finalIndex, n), line, heading)
  {
    var lines := Split(content, '\n');
    var found := FirstLine(lines, IndexRule);
    assert lines[rule - 1] == IndexRule;
    assert found.Some? && found.value <= rule - 1;
    SplicedKeepsLater(content, finalIndex, n, line);
  }

  /**
   * The index is right: with at least one clinician and no line break in any email, the line
   * whose number the index gives for clinician `k` is that clinician's `CLINICIAN:` heading in
   * the finished report.
   */
  lemma {:induction false} IndexPointsAtHeading(cs: seq<ClinicianData>, center: string, start: int, end: int, days: int, fmt: Formats, k: nat)
    requires k < |cs|
    requires forall i :: 0 <= i < |cs| ==> '\n' !in cs[i].email
    ensures var pre := Preamble(|cs|, center, start, end, days, fmt);
      LineAt(TextReport(cs, center, start, end, days, fmt), IndexEntries(pre, cs, days, fmt)[k].lineNumber, Heading(cs[k]))
  {
    var n := |cs|;
    var pre := Preamble(n, center, start, end, days, fmt);
    var entries := IndexEntries(pre, cs, days, fmt);
    var line := LineOf(pre, cs, days, fmt, k);
    var rule := Count(Header(center, start, end, days, fmt), '\n') + 2;
    // the heading, in the report before the index is written
    PreambleEndsWithBreak(n, center, start, end, days, fmt);
    HeadingLine(pre, cs, days, fmt, k);
    // the rule under the index title
    IndexRuleLine(cs, center, start, end, days, fmt);
    // the heading lies below the placeholder lines
    assert rule + n < line by {
      CountPreamble(n, center, start, end, days, fmt);
      CountConcat(pre, Blocks(cs[..k], days, fmt), '\n');
    }
    // the index has one line per clinician
    IndexLinesSplit(entries);
    SplicedKeepsLine(pre + Blocks(cs, days, fmt), Join(IndexLines(entries), "\n"), n, rule, line, Heading(cs[k]));
  }

  lemma {:induction false} PreambleEndsWithBreak(n: nat, center: string, start: int, end: int, days: int, fmt: Formats)
    ensures EndsWithBreak(Preamble(n, center, start, end, days, fmt))
  {
  }

  // ---------------------------------------------------------------------------------------
  // Writing the report

  /**
   * One clinician's section, written piece by piece as the report loop writes it, with the number
   * of line breaks written (each piece's `split('\n').length - 1`).
   */
  method WriteClinician(c: ClinicianData, days: int, fmt: Formats) returns (block: string, breaks: nat)
    ensures block == Block(c, days, fmt)
    ensures breaks == Count(block, '\n')
  {
    var clinicianHeader := Heading(c) + "\n" + CenterLine(c) + "\n";
    var summary := Summary(c);
    block := clinicianHeader + summary;
    breaks := Count(clinicianHeader, '\n') + Count(summary, '\n');
    CountConcat(clinicianHeader, summary, '\n');
    ghost var front := block;
    var texts := SessionTexts(c.sessions, fmt);
    assert texts[..0] == [];
    var j := 0;
    while j < |c.sessions|
      invariant 0 <= j <= |c.sessions|
      invariant block == front + Concat(texts[..j])
      invariant breaks == Count(block, '\n')
    {
      var session := c.sessions[j];
      var sessionHeader := SessionHeader(session, fmt);
      var qa := QAPairs(ObjectEntries(session.jsonToPopulate));
      AppendPiece(front, texts, j, sessionHeader, qa);
      AppendCount(block, sessionHeader, qa);
      block, breaks := block + sessionHeader + qa, breaks + Count(sessionHeader, '\n') + Count(qa, '\n');
      j := j + 1;
    }
    WholePrefix(texts, j);
    var none := NoSessionsText(c, days);
    if |c.sessions| == 0 {
      CountNoSessions(c, days);
      AppendCount(block, none, "\n");
      block, breaks := block + none + "\n", breaks + 2 + 1;
    } else {
      AppendCount(block, none, "\n");
      block, breaks := block + none + "\n", breaks + 1;
    }
    BlockParts(c, days, fmt);
  }

  /**
   * The text report as the corrected line count writes it: the preamble, the sections with the
   * index entry of each clinician recorded as its section starts, then the index spliced in after
   * the first `==================` line.
   */
  method GenerateTextReport(cs: seq<ClinicianData>, center: string, start: int, end: int, days: int, fmt: Formats)
    returns (report: string)
    ensures report == TextReport(cs, center, start, end, days, fmt)
  {
    var header := Header(center, start, end, days, fmt);
    var content := header + IndexHeading() + Placeholder(|cs|) + SectionRule();
    var currentLine := 1 + Count(header, '\n') + 2 + (if |cs| == 0 then 2 else |cs| + 1) + 2;
    ghost var pre := content;
    CountPreamble(|cs|, center, start, end, days, fmt);
    assert Blocks(cs[..0], days, fmt) == "" by { assert BlockTexts(cs[..0], days, fmt) == []; }
    var index: seq<IndexEntry> := [];
    var i := 0;
    while i < |cs|
      invariant 0 <= i <= |cs|
      invariant content == pre + Blocks(cs[..i], days, fmt)
      invariant currentLine == 1 + Count(content, '\n')
      invariant |index| == i
      invariant forall k :: 0 <= k < i ==> index[k] == IndexEntry(cs[k].email, LineOf(pre, cs, days, fmt, k))
    {
      IndexStep(index, pre, cs, days, fmt, i, currentLine);
      index := index + [IndexEntry(cs[i].email, currentLine)];
      var block, breaks := WriteClinician(cs[i], days, fmt);
      SectionStep(content, pre, cs, days, fmt, i, block);
      content, currentLine := content + block, currentLine + breaks;
      i := i + 1;
    }
    WholePrefix(cs, i);
    IndexComplete(index, pre, cs, days, fmt);
    var finalIndex := Join(IndexLines(index), "\n");
    report := SpliceIndex(content, finalIndex, |cs|);
  }

  /**
   * Replacing the `n` placeholder lines: the first line that is exactly `==================` is
   * searched for, and the lines after it are replaced by those of the final index.
   */
  method SpliceIndex(content: string, finalIndex: string, n: nat) returns (r: string)
    ensures r == Spliced(content, finalIndex, n)
  {
    var lines := Split(content, '\n');
    var j := 0;
    while j < |lines| && lines[j] != IndexRule
      invariant 0 <= j <= |lines|
      invariant forall m :: 0 <= m < j ==> lines[m] != IndexRule
    {
      j := j + 1;
    }
    FirstLineFound(lines, IndexRule, j);
    r := content;
    if j < |lines| {
      var indexLineStart := j + 1;
      lines := lines[..indexLineStart] + Split(finalIndex, '\n') + lines[Min(indexLineStart + n, |lines|)..];
      r := Join(lines, "\n");
    }
  }

  /** The result of a linear search for `target` is what `FirstLine` gives. */
  lemma {:induction false} FirstLineFound(lines: seq<string>, target: string, j: nat)
    requires j <= |lines| && forall m :: 0 <= m < j ==> lines[m] != target
    requires j < |lines| ==> lines[j] == target
    ensures FirstLine(lines, target) == if j < |lines| then Some(j) else None
  {
  }

  lemma {:induction false} IndexComplete(index: seq<IndexEntry>, pre: string, cs: seq<ClinicianData>, days: int, fmt: Formats)
    requires |index| == |cs|
    requires forall k :: 0 <= k < |cs| ==> index[k] == IndexEntry(cs[k].email, LineOf(pre, cs, days, fmt, k))
    ensures index == IndexEntries(pre, cs, days, fmt)
  {
  }

  lemma {:induction false} ConcatSnoc(parts: seq<string>, j: nat)
    requires j < |parts|
    ensures Concat(parts[..j + 1]) == Concat(parts[..j]) + parts[j]
  {
    assert parts[..j + 1][..j] == parts[..j];
  }

  /** Recording clinician `i`'s entry at the line where its section starts. */
  lemma {:induction false} IndexStep(index: seq<IndexEntry>, pre: string, cs: seq<ClinicianData>, days: int, fmt: Formats,
                                     i: nat, line: nat)
    requires i < |cs| && |index| == i && line == LineOf(pre, cs, days, fmt, i)
    requires forall k :: 0 <= k < i ==> index[k] == IndexEntry(cs[k].email, LineOf(pre, cs, days, fmt, k))
    ensures var next := index + [IndexEntry(cs[i].email, line)];
      forall k :: 0 <= k < i + 1 ==> next[k] == IndexEntry(cs[k].email, LineOf(pre, cs, days, fmt, k))
  {
  }

  /** Writing clinician `i`'s section after those before it. */
  lemma {:induction false} SectionStep(content: string, pre: string, cs: seq<ClinicianData>, days: int, fmt: Formats,
                                       i: nat, block: string)
    requires i < |cs| && content == pre + Blocks(cs[..i], days, fmt) && block == Block(cs[i], days, fmt)
    ensures content + block == pre + Blocks(cs[..i + 1], days, fmt)
    ensures Count(content + block, '\n') == Count(content, '\n') + Count(block, '\n')
  {
    var front := Blocks(cs[..i], days, fmt);
    BlocksSnoc(cs, days, fmt, i);
    AppendAssoc(pre, front, block);
    CountConcat(content, block, '\n');
  }

  lemma {:induction false} AppendAssoc(a: string, b: string, c: string)
    ensures a + (b + c) == a + b + c
  {
  }

  lemma {:induction false} WholePrefix<T>(parts: seq<T>, j: nat)
    requires j == |parts|
    ensures parts[..j] == parts
  {
  }

  /** Writing the two pieces of part `j` after the parts before it. */
  lemma {:induction false} AppendPiece(front: string, parts: seq<string>, j: nat, a: string, b: string)
    requires j < |parts| && parts[j] == a + b
    ensures front + Concat(parts[..j]) + a + b == front + Concat(parts[..j + 1])
  {
    ConcatSnoc(parts, j);
  }

  lemma {:induction false} AppendCount(s: string, a: string, b: string)
    ensures Count(s + a + b, '\n') == Count(s, '\n') + Count(a, '\n') + Count(b, '\n')
  {
    CountConcat(s, a, '\n');
    CountConcat(s + a, b, '\n');
  }

  lemma {:induction false} BlocksSnoc(cs: seq<ClinicianData>, days: int, fmt: Formats, i: nat)
    requires i < |cs|
    ensures Blocks(cs[..i + 1], days, fmt) == Blocks(cs[..i], days, fmt) + Block(cs[i], days, fmt)
  {
    var texts := BlockTexts(cs, days, fmt);
    BlockTextsPrefix(cs, days, fmt, i);
    BlockTextsPrefix(cs, days, fmt, i + 1);
    ConcatSnoc(texts, i);
  }

  lemma {:induction false} CountNoSessions(c: ClinicianData, days: int)
    requires |c.sessions| == 0
    ensures Count(NoSessionsText(c, days), '\n') == 2
  {
    var days' := IntToString(days);
    assert '\n' !in days' by {
      if days < 0 { NoBreakInNumber(-days); } else { NoBreakInNumber(days); }
    }
    var line := "No sessions in the last " + days' + " days.";
    assert NoSessionsText(c, days) == (line + "\n") + "\n";
    LineBreakCount(line);
    CountConcat(line + "\n", "\n", '\n');
  }

  lemma {:induction false} BlockParts(c: ClinicianData, days: int, fmt: Formats)
    ensures Block(c, days, fmt)
      == Heading(c) + "\n" + CenterLine(c) + "\n" + Summary(c) + Concat(SessionTexts(c.sessions, fmt))
         + NoSessionsText(c, days) + "\n"
  {
    RegroupTail(Heading(c), "\n", CenterLine(c), "\n", Summary(c), Concat(SessionTexts(c.sessions, fmt)),
                NoSessionsText(c, days), "\n");
  }

  lemma {:induction false} RegroupTail(a: string, b: string, c: string, d: string, e: string, f: string, g: string, h: string)
    ensures a + b + (c + d + e + f + g + h) == a + b + c + d + e + f + g + h
  {
  }

  // ---------------------------------------------------------------------------------------
  // Gathering the data

  /**
   * One user's section data, gathered as the report loop gathers it: the answered questions of the
   * kept sessions are counted one entry at a time.
   */
  method GatherClinician(user: UserAnalytics, fetched: Option<seq<SessionDetail>>, start: int, end: int)
    returns (c: ClinicianData)
    ensures c == ClinicianOf(user, fetched, start, end)
  {
    var center := if Truthy(user.centerName) then user.centerName.value else "";
    assert center == user.centerName.GetOr("");
    if fetched.None? {
      c := ClinicianData(user.email, center, [], 0);
    } else {
      var valid := ValidSessions(fetched.value, start, end);
      var total := 0;
      var j := 0;
      while j < |valid|
        invariant 0 <= j <= |valid|
        invariant total == AnsweredTotal(valid[..j])
      {
        var answered := CountAnswers(ObjectEntries(valid[j].jsonToPopulate));
        AnsweredTotalSnoc(valid, j);
        total := total + answered;
        j := j + 1;
      }
      WholePrefix(valid, j);
      c := ClinicianData(user.email, center, valid, total);
    }
  }

  /** `for (const user of filteredUsers)`: one section's data per user, in order. */
  method GatherClinicians(users: seq<UserAnalytics>, sessionsOf: string -> Option<seq<SessionDetail>>, start: int, end: int)
    returns (data: seq<ClinicianData>)
    ensures data == Clinicians(users, sessionsOf, start, end)
  {
    data := [];
    var i := 0;
    while i < |users|
      invariant 0 <= i <= |users|
      invariant |data| == i
      invariant data == Clinicians(users[..i], sessionsOf, start, end)
    {
      var c := GatherClinician(users[i], sessionsOf(users[i].userId), start, end);
      CliniciansSnoc(users, sessionsOf, start, end, i);
      data := data + [c];
      i := i + 1;
    }
    assert users[..i] == users;
  }

  lemma {:induction false} CliniciansSnoc(users: seq<UserAnalytics>, sessionsOf: string -> Option<seq<SessionDetail>>,
                                          start: int, end: int, i: nat)
    requires i < |users|
    ensures Clinicians(users[..i + 1], sessionsOf, start, end)
      == Clinicians(users[..i], sessionsOf, start, end) + [ClinicianOf(users[i], sessionsOf(users[i].userId), start, end)]
  {
    var longer, shorter := users[..i + 1], users[..i];
    var a := Clinicians(longer, sessionsOf, start, end);
    var b := Clinicians(shorter, sessionsOf, start, end) + [ClinicianOf(users[i], sessionsOf(users[i].userId), start, end)];
    forall k | 0 <= k < |a| ensures a[k] == b[k] {
      if k < i {
        assert longer[k] == shorter[k];
      }
    }
  }

  lemma {:induction false} AnsweredTotalSnoc(sessions: seq<SessionDetail>, j: nat)
    requires j < |sessions|
    ensures AnsweredTotal(sessions[..j + 1])
      == AnsweredTotal(sessions[..j]) + UserDetailContent.AnsweredCount(ObjectEntries(sessions[j].jsonToPopulate))
  {
    assert sessions[..j + 1][..j] == sessions[..j];
  }

  /** What the report covers: the selected users' data over the `days` days up to `now`. */
  function ReportData(users: seq<UserAnalytics>, selected: string, days: int, now: int,
                      sessionsOf: string -> Option<seq<SessionDetail>>): seq<ClinicianData>
  {
    Clinicians(SelectedUsers(users, selected), sessionsOf, WindowStart(now, days), now)
  }

  /** One section per selected user, in email order, under that user's email. */
  lemma {:induction false} ReportDataOrder(users: seq<UserAnalytics>, selected: string, days: int, now: int,
                                           sessionsOf: string -> Option<seq<SessionDetail>>)
    ensures var chosen := SelectedUsers(users, selected);
      var r := ReportData(users, selected, days, now, sessionsOf);
      && |r| == |chosen|
      && (forall k :: 0 <= k < |r| ==> r[k].email == chosen[k].email)
      && (forall i, j :: 0 <= i < j < |r| ==> StrLe(r[i].email, r[j].email))
  {
    var chosen := SelectedUsers(users, selected);
    var r := ReportData(users, selected, days, now, sessionsOf);
    forall k | 0 <= k < |r| ensures r[k].email == chosen[k].email {
      ClinicianOfEmail(chosen[k], sessionsOf(chosen[k].userId), WindowStart(now, days), now);
    }
    SelectedUsersSorted(users, selected);
  }

  lemma {:induction false} ClinicianOfEmail(user: UserAnalytics, fetched: Option<seq<SessionDetail>>, start: int, end: int)
    ensures ClinicianOf(user, fetched, start, end).email == user.email
  {
  }

  /**
   * Each section holds only reportable sessions of its own user, with their answered questions
   * summed; a user whose sessions could not be fetched has an empty section.
   */
  lemma {:induction false} ReportDataSessions(users: seq<UserAnalytics>, selected: string, days: int, now: int,
                                              sessionsOf: string -> Option<seq<SessionDetail>>, k: nat)
    requires k < |SelectedUsers(users, selected)|
    ensures var user := SelectedUsers(users, selected)[k];
      var c := ReportData(users, selected, days, now, sessionsOf)[k];
      var fetched := sessionsOf(user.userId);
      && c.totalAnsweredQuestions == AnsweredTotal(c.sessions)
      && (fetched.None? ==> c.sessions == [])
      && (forall i :: 0 <= i < |c.sessions| ==>
            Reportable(c.sessions[i], WindowStart(now, days), now) && fetched.Some? && c.sessions[i] in fetched.value)
  {
    var user := SelectedUsers(users, selected)[k];
    var fetched := sessionsOf(user.userId);
    if fetched.Some? {
      ValidSessionsSpec(fetched.value, WindowStart(now, days), now);
    }
  }

  // ---------------------------------------------------------------------------------------
  // The report form

  /** How the PDF attempt ended: the generator could not be loaded, or it returned a result. */
  datatype PdfOutcome = PdfUnavailable | PdfResult(success: bool, fallbackToText: bool)

  /** The text report is written when the PDF generator is missing, failed, or asks for the fallback. */
  predicate TextFallback(pdf: PdfOutcome) {
    pdf.PdfUnavailable? || !pdf.success || pdf.fallbackToText
  }

  const LoadCentersError := "Failed to load centers"
  const GenerateError := "Failed to generate report. Please try again."

  /** `formatFileDate`: the part of `toISOString()` before the first `T`. */
  function FileDate(now: int, fmt: Formats): (d: string)
    ensures 'T' !in d
  {
    Split(fmt.iso(now), 'T')[0]
  }

  /** An ISO timestamp `YYYY-MM-DDThh:mm:ss.sssZ` gives its calendar date. */
  lemma {:induction false} FileDateOfIso(now: int, fmt: Formats, date: string, clock: string)
    requires 'T' !in date && fmt.iso(now) == date + "T" + clock
    ensures FileDate(now, fmt) == date
  {
    assert date + "T" + clock == date + ['T'] + clock;
    SplitAround(date, clock, 'T');
  }

  /** `clinical_notes_report_${formatFileDate(new Date())}.txt`. */
  function ReportFileName(now: int, fmt: Formats): string {
    "clinical_notes_report_" + FileDate(now, fmt) + ".txt"
  }

  /** The text file the report button downloads, if it downloads one: its name, then its text. */
  function Download(users: Result<seq<UserAnalytics>, string>, selected: string, days: int, now: int,
                    sessionsOf: string -> Option<seq<SessionDetail>>, pdf: PdfOutcome, fmt: Formats): (file: Option<(string, string)>)
    ensures file.Some? <==> users.Ok? && TextFallback(pdf)
    ensures file.Some? ==> file.value.0 == ReportFileName(now, fmt)
    ensures file.Some? ==> file.value.1 == TextReport(ReportData(users.value, selected, days, now, sessionsOf), selected, WindowStart(now, days), now, days, fmt)
  {
    if users.Ok? && TextFallback(pdf) then
      Some((ReportFileName(now, fmt),
            TextReport(ReportData(users.value, selected, days, now, sessionsOf), selected, WindowStart(now, days), now, days, fmt)))
    else None
  }

  /** `users.forEach(...)` adding each truthy center name to a `Set`, one user at a time. */
  lemma {:induction false} DistinctCentersSnoc(users: seq<UserAnalytics>, i: nat)
    requires i < |users|
    ensures var before := Distinct(CenterNames(users[..i]));
      var name := users[i].centerName;
      Distinct(CenterNames(users[..i + 1]))
        == if Truthy(name) && name.value !in before then before + [name.value] else before
  {
    var prefix := users[..i + 1];
    assert prefix[..i] == users[..i];
    var names := CenterNames(users[..i]);
    if Truthy(users[i].centerName) {
      var x := users[i].centerName.value;
      assert CenterNames(prefix) == names + [x];
      assert (names + [x])[..|names|] == names;
    } else {
      assert CenterNames(prefix) == names;
    }
  }

  /** The distinct truthy center names, in order of first appearance, gathered into a `Set`. */
  method UniqueCenters(users: seq<UserAnalytics>) returns (unique: seq<string>)
    ensures unique == Distinct(CenterNames(users))
  {
    unique := [];
    var i := 0;
    while i < |users|
      invariant 0 <= i <= |users|
      invariant unique == Distinct(CenterNames(users[..i]))
    {
      DistinctCentersSnoc(users, i);
      var name := users[i].centerName;
      if Truthy(name) && name.value !in unique {
        unique := unique + [name.value];
      }
      i := i + 1;
    }
    WholePrefix(users, i);
  }

  /** `Object.values(json).forEach(item => { if (item.answer) count++ })`. */
  method CountAnswers(entries: seq<(string, QAItem)>) returns (count: nat)
    ensures count == UserDetailContent.AnsweredCount(entries)
  {
    count := 0;
    var m := 0;
    while m < |entries|
      invariant 0 <= m <= |entries|
      invariant count == UserDetailContent.AnsweredCount(entries[..m])
    {
      AnsweredCountSnoc(entries, m);
      if Truthy(entries[m].1.answer) {
        count := count + 1;
      }
      m := m + 1;
    }
    WholePrefix(entries, m);
  }

  /** The report form's state. */
  class ReportForm {
    var centers: seq<CenterOption>
    var selectedCenter: string
    var daysRange: int
    var isGenerating: bool
    var error: Option<string>

    constructor()
      ensures centers == [] && selectedCenter == "all" && daysRange == 7
      ensures !isGenerating && error == None
    {
      centers := [];
      selectedCenter := "all";
      daysRange := 7;
      isGenerating := false;
      error := None;
    }

    /** Loading the center options: the loaded users' options, or an error message that keeps the old ones. */
    method FetchCenters(users: Result<seq<UserAnalytics>, string>)
      modifies this
      ensures users.Ok? ==> centers == CenterOptions(users.value) && error == old(error)
      ensures users.Err? ==> centers == old(centers) && error == Some(LoadCentersError)
      ensures selectedCenter == old(selectedCenter) && daysRange == old(daysRange) && isGenerating == old(isGenerating)
    {
      if users.Err? {
        error := Some(LoadCentersError);
        return;
      }
      var unique := UniqueCenters(users.value);
      centers := [AllCentersOption] + NameOptions(SortStrings(unique));
    }

    method SelectCenter(value: string)
      modifies this
      ensures selectedCenter == value
      ensures centers == old(centers) && daysRange == old(daysRange)
      ensures isGenerating == old(isGenerating) && error == old(error)
    {
      selectedCenter := value;
    }

    /** Typing into the day-range input. */
    method ChangeDaysRange(input: string)
      modifies this
      ensures daysRange == DaysRangeAfterInput(old(daysRange), input)
      ensures centers == old(centers) && selectedCenter == old(selectedCenter)
      ensures isGenerating == old(isGenerating) && error == old(error)
    {
      var value := ParseInt(input);
      if value.Some? && value.value > 0 && value.value <= MaxDaysRange {
        daysRange := value.value;
      }
    }

    /**
     * The report button: load the users, gather the selected ones' data, try the PDF and fall
     * back to the text report. `now` is the moment both ends of the period are taken from;
     * `sessionsOf` gives each user's session fetch (`None` when it throws).
     */
    method GenerateReport(users: Result<seq<UserAnalytics>, string>, sessionsOf: string -> Option<seq<SessionDetail>>,
                          now: int, pdf: PdfOutcome, fmt: Formats)
      returns (download: Option<(string, string)>)
      modifies this
      ensures download == Download(users, old(selectedCenter), old(daysRange), now, sessionsOf, pdf, fmt)
      ensures error == (if users.Ok? then None else Some(GenerateError))
      ensures !isGenerating
      ensures centers == old(centers) && selectedCenter == old(selectedCenter) && daysRange == old(daysRange)
    {
      isGenerating, error := true, None;
      download := None;
      if users.Err? {
        error := Some(GenerateError);
      } else {
        var filtered := SelectedUsers(users.value, selectedCenter);
        var end := now;
        var start := WindowStart(now, daysRange);
        var data := GatherClinicians(filtered, sessionsOf, start, end);
        if TextFallback(pdf) {
          var report := GenerateTextReport(data, selectedCenter, start, end, daysRange, fmt);
          download := Some((ReportFileName(now, fmt), report));
        }
      }
      isGenerating := false;
    }
  }
}
