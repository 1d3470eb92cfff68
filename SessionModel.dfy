/** The session state of the `App` component (App.tsx) as a value, and one transition function
    per handler of App.tsx, or per phase of a handler that awaits: the part before its first
    `await` ("Begin") and the part that runs when the awaited result arrives ("Finish").
    A whole handler is the composition of its phases, run without interruption. The class
    `App.Session` is proved to move through exactly these states.

    Results of external collaborators (repository metadata, scan findings and the callbacks
    the scanner makes, the verdict, the explanation, the fix, the chat reply) and the clock are
    parameters. */
module SessionModel {
  import opened Types
  import opened Stages
  import opened Text

  /** A time-of-day or date string; its format is not modelled. */
  type Timestamp = string

  /** The level of a log line: INFO, WARN, ERROR or SYSTEM. */
  datatype LogLevel = InfoLevel | WarnLevel | ErrorLevel | SystemLevel

  /** ScanLog: one line of the audit log. */
  datatype ScanLog = ScanLog(timestamp: Timestamp, level: LogLevel, message: string)

  /** RepoMetadata: the resolved target; only the members the handlers read are kept. */
  datatype RepoMetadata = RepoMetadata(owner: string, name: string)

  /** The `{ fix, diff }` remediation suggestion. */
  datatype FixData = FixData(fix: string, diff: string)

  /** One entry of the audit history ledger. */
  datatype AuditEntry = AuditEntry(date: Timestamp, repo: string, vuln: string, status: VerdictResult, savings: string)

  /** The author of a chat turn: the user or the model. */
  datatype Role = User | Model

  datatype ChatMessage = ChatMessage(role: Role, text: string)

  /** What the chat request settles to: a response whose `text` may be empty (an absent text
      is read as empty), or a thrown error. */
  datatype ChatReply = Ok(text: string) | Err

  /** A callback the scanner makes while it runs: `addLog(entry)` or `updateStageStatus(id, status)`. */
  datatype ScanEvent = Log(entry: ScanLog) | StageChange(id: string, status: ActiveStatus)

  /** The time stamps `initiateAnalysis` reads: three log times and the ledger date. */
  datatype AuditClock = AuditClock(activated: Timestamp, synthesizing: Timestamp, finalized: Timestamp, completedAt: Timestamp)

  /** The state cells of the component (all but the display-only ones). */
  datatype SessionState = SessionState(
    activeView: string,
    isStarted: bool,
    repoUrl: string,
    repoMetadata: Option<RepoMetadata>,
    stages: seq<PipelineStage>,
    status: PipelineStatus,
    vulnerabilities: seq<Vulnerability>,
    selectedVuln: Option<Vulnerability>,
    reasoning: Option<string>,
    verdict: Option<SecurityVerdict>,
    isHealing: bool,
    fixData: Option<FixData>,
    logs: seq<ScanLog>,
    auditHistory: seq<AuditEntry>,
    chatMessages: seq<ChatMessage>,
    chatInput: string,
    isTyping: bool)

  const DefaultView := "Intelligence Space"
  const ResetMessage := "Core reset successful. Environmental memory purged."
  const ActivationMessage := "Activating 8-Layer ML Defense Pipeline..."
  const SynthesisMessage := "Synthesizing Verdict (Weighted Bayesian)..."
  const ExaminePlaceholder := "Interrogating XAI Attribution Layer (SHAP values)..."
  const CleanScan := "Clean Scan"
  const NoSavings := "$0"
  const ConnectionLost := "Connection lost."
  const ServiceError := "Service error."

  const FinalizedPrefix := "Audit Finalized. Posture: "
  const PatchPrefix := "Triggering Patch Synthesis for "

  /** The posture line names the verdict's result so that it can be read back from the line. */
  function FinalizedMessage(result: VerdictResult): (m: string)
    ensures |m| > |FinalizedPrefix| && m[..|FinalizedPrefix|] == FinalizedPrefix
    ensures ParseVerdictResult(m[|FinalizedPrefix|..]) == Some(result)
  {
    VerdictNameRoundTrip(result);
    assert (FinalizedPrefix + VerdictName(result))[|FinalizedPrefix|..] == VerdictName(result);
    FinalizedPrefix + VerdictName(result)
  }

  /** The patch request line ends with the finding's id, which it carries unchanged. */
  function PatchMessage(vulnId: string): (m: string)
    ensures |m| == |PatchPrefix| + |vulnId| && m[..|PatchPrefix|] == PatchPrefix && m[|PatchPrefix|..] == vulnId
  {
    PatchPrefix + vulnId
  }

  /** The state the component mounts with. */
  function Initial(): (s: SessionState)
    ensures s.status == Idle && !s.isStarted && s.repoUrl == "" && s.repoMetadata == None
    ensures s.stages == InitialPipelineStages() && s.vulnerabilities == []
    ensures s.selectedVuln == None && s.reasoning == None && s.verdict == None && s.fixData == None
    ensures !s.isHealing && !s.isTyping && s.logs == [] && s.auditHistory == []
    ensures s.chatMessages == [] && s.chatInput == "" && s.activeView == DefaultView
  {
    SessionState(DefaultView, false, "", None, InitialPipelineStages(), Idle, [], None, None, None,
                 false, None, [], [], [], "", false)
  }

  // ---------------------------------------------------------------------------------------
  // Pure pieces of the handlers
  // ---------------------------------------------------------------------------------------

  /** The terminal status a verdict leads to: FAILED exactly for FAIL, PASSED for the rest. */
  function StatusForVerdict(result: VerdictResult): (st: PipelineStatus)
    ensures st == Failed <==> result == Fail
    ensures st == Passed <==> result != Fail
  {
    if result == Fail then Failed else Passed
  }

  /** The savings column of a ledger entry: `$<15·count>k`, or `$0` for no findings. */
  function SavingsLabel(count: nat): (text: string)
    ensures text == NoSavings <==> count == 0
    ensures |text| >= 2 && text[0] == '$'
    ensures count > 0 ==> |text| >= 3 && text[1] != '0' && text[|text| - 1] == 'k'
  {
    if count > 0 then "$" + Decimal(count * 15) + "k" else NoSavings
  }

  /** Reads back the amount (in thousands) a savings label states. */
  function ParseSavings(text: string): Option<nat> {
    if text == NoSavings then Some(0)
    else if |text| >= 3 && text[0] == '$' && text[|text| - 1] == 'k' && AllDigits(text[1..|text| - 1])
    then Some(DecimalValue(text[1..|text| - 1]))
    else None
  }

  /** A savings label states exactly fifteen thousand per finding. */
  lemma SavingsRoundTrip(count: nat)
    ensures ParseSavings(SavingsLabel(count)) == Some(15 * count)
  {
    if count > 0 {
      var digits := Decimal(count * 15);
      var printed := SavingsLabel(count);
      assert |printed| == |digits| + 2;
      assert printed[1..|printed| - 1] == digits;
      DecimalRoundTrip(count * 15);
    }
  }

  /** The ledger entry for a finished audit of `meta` with findings `results` and verdict `v`. */
  function AuditEntryFor(date: Timestamp, meta: RepoMetadata, results: seq<Vulnerability>, v: SecurityVerdict): (e: AuditEntry)
    ensures e.date == date && e.repo == meta.name && e.status == v.result
    ensures |results| > 0 ==> e.vuln == results[0].title
    ensures |results| == 0 ==> e.vuln == CleanScan
    ensures ParseSavings(e.savings) == Some(15 * |results|)
    ensures e.savings == NoSavings <==> |results| == 0
    ensures |results| > 0 ==> e.savings[1] != '0'
  {
    SavingsRoundTrip(|results|);
    AuditEntry(date, meta.name, if |results| > 0 then results[0].title else CleanScan, v.result, SavingsLabel(|results|))
  }

  /** The model turn a chat request produces: the reply, `Connection lost.` for an empty reply,
      `Service error.` for a failure. It is never empty. */
  function ReplyText(reply: ChatReply): (t: string)
    ensures t != ""
    ensures reply.Ok? && reply.text != "" ==> t == reply.text
    ensures reply == Ok("") ==> t == ConnectionLost
    ensures reply.Err? ==> t == ServiceError
  {
    match reply
    case Ok(text) => if text != "" then text else ConnectionLost
    case Err => ServiceError
  }

  // ---------------------------------------------------------------------------------------
  // Transitions
  // ---------------------------------------------------------------------------------------

  /** `addLog`: the entry goes at the end of the log and nothing else changes. */
  function AddLog(s: SessionState, entry: ScanLog): (r: SessionState)
    ensures r.logs == s.logs + [entry]
    ensures r.(logs := s.logs) == s
  {
    s.(logs := s.logs + [entry])
  }

  /** The updates `handleReset` and `initiateAnalysis` share: the stage list is re-mapped from
      the registry with every status PENDING, and the findings, the verdict, the explanation,
      the fix and the log are emptied. Nothing else changes. */
  function ClearAudit(s: SessionState): (r: SessionState)
    ensures r.stages == InitialPipelineStages() && r.vulnerabilities == []
    ensures r.verdict == None && r.reasoning == None && r.fixData == None && r.logs == []
    ensures r.(stages := s.stages, vulnerabilities := s.vulnerabilities, verdict := s.verdict,
               reasoning := s.reasoning, fixData := s.fixData, logs := s.logs) == s
  {
    ResetRegistryIsRegistry();
    s.(stages := ResetStatuses(InitialPipelineStages()), vulnerabilities := [], verdict := None,
       reasoning := None, fixData := None, logs := [])
  }

  /** `handleReset`: the audit-scoped cells go back to their defaults, the log keeps the reset
      line only, and the ledger, the chat and the healing flag are kept. */
  function HandleReset(s: SessionState, ts: Timestamp): (r: SessionState)
    ensures r.status == Idle && !r.isStarted && r.repoUrl == "" && r.repoMetadata == None
    ensures r.stages == InitialPipelineStages() && r.vulnerabilities == []
    ensures r.verdict == None && r.reasoning == None && r.fixData == None && r.selectedVuln == None
    ensures r.logs == [ScanLog(ts, SystemLevel, ResetMessage)] && r.activeView == DefaultView
    ensures r.auditHistory == s.auditHistory && r.chatMessages == s.chatMessages
    ensures r.chatInput == s.chatInput && r.isTyping == s.isTyping && r.isHealing == s.isHealing
  {
    AddLog(ClearAudit(s).(isStarted := false, repoUrl := "", repoMetadata := None, status := Idle,
                          selectedVuln := None, activeView := DefaultView),
           ScanLog(ts, SystemLevel, ResetMessage))
  }

  /** `updateStageStatus`: only the stage list changes, as UpdateStage says. */
  function UpdateStageStatus(s: SessionState, id: string, status: ActiveStatus): (r: SessionState)
    ensures r.stages == UpdateStage(s.stages, id, status)
    ensures r.(stages := s.stages) == s
  {
    s.(stages := UpdateStage(s.stages, id, status))
  }

  /** `initiateAnalysis` up to its first `await`. An empty URL changes nothing. Otherwise the
      audit starts whatever the current status is (there is no re-entry guard in the handler):
      the stages, findings, verdict, explanation, fix and log are cleared and the activation
      line is logged. The selected finding, the metadata and everything else are kept. */
  function BeginAnalysis(s: SessionState, ts: Timestamp): (r: SessionState)
    ensures s.repoUrl == "" ==> r == s
    ensures s.repoUrl != "" ==>
      && r.isStarted && r.status == Scanning && r.stages == InitialPipelineStages()
      && r.vulnerabilities == [] && r.verdict == None && r.reasoning == None && r.fixData == None
      && r.logs == [ScanLog(ts, SystemLevel, ActivationMessage)]
      && r.(isStarted := s.isStarted, status := s.status, stages := s.stages,
            vulnerabilities := s.vulnerabilities, verdict := s.verdict, reasoning := s.reasoning,
            fixData := s.fixData, logs := s.logs) == s
  {
    if s.repoUrl == "" then s
    else
      AddLog(ClearAudit(s).(isStarted := true, status := Scanning), ScanLog(ts, SystemLevel, ActivationMessage))
  }

  /** `setRepoMetadata(metadata)` once `fetchRepoContext` settles. */
  function ReceiveMetadata(s: SessionState, metadata: Option<RepoMetadata>): (r: SessionState)
    ensures r.repoMetadata == metadata && r.(repoMetadata := s.repoMetadata) == s
  {
    s.(repoMetadata := metadata)
  }

  /** One scanner callback: `addLog(entry)` touches only the log, `updateStageStatus(id, status)`
      only the stages. */
  function ApplyScanEvent(s: SessionState, e: ScanEvent): (r: SessionState)
    ensures e.Log? ==> r.stages == s.stages
    ensures e.StageChange? ==> r.stages == UpdateStage(s.stages, e.id, e.status)
    ensures r.logs == s.logs + (if e.Log? then [e.entry] else [])
    ensures r.(logs := s.logs, stages := s.stages) == s
  {
    match e
    case Log(entry) => AddLog(s, entry)
    case StageChange(id, status) => UpdateStageStatus(s, id, status)
  }

  /** The log lines among the scanner's callbacks, in order. */
  function EmittedLogs(events: seq<ScanEvent>): seq<ScanLog> {
    if events == [] then []
    else EmittedLogs(events[..|events| - 1]) + (if events[|events| - 1].Log? then [events[|events| - 1].entry] else [])
  }

  /** The status the last stage change for `id` among `events` reports, or `otherwise` when no
      callback names `id`. */
  function LastStatus(events: seq<ScanEvent>, id: string, otherwise: StageStatus): StageStatus {
    if events == [] then otherwise
    else
      var e := events[|events| - 1];
      if e.StageChange? && e.id == id then e.status else LastStatus(events[..|events| - 1], id, otherwise)
  }

  /** The scanner's callbacks, in the order it makes them: the log grows by exactly the lines
      it emits; each stage keeps its id, caption and progress and ends with the status of the
      last change reported for its id, or its own status when none was; nothing else changes. */
  function ApplyScanEvents(s: SessionState, events: seq<ScanEvent>): (r: SessionState)
    ensures SameShape(r.stages, s.stages)
    ensures forall i :: 0 <= i < |s.stages| ==>
              r.stages[i].status == LastStatus(events, s.stages[i].id, s.stages[i].status)
    ensures r.logs == s.logs + EmittedLogs(events)
    ensures r.(logs := s.logs, stages := s.stages) == s
  {
    if events == [] then s
    else ApplyScanEvent(ApplyScanEvents(s, events[..|events| - 1]), events[|events| - 1])
  }

  /** `orchestrateScan` settles: the findings replace the batch and synthesis is logged. */
  function FinishScan(s: SessionState, results: seq<Vulnerability>, ts: Timestamp): (r: SessionState)
    ensures r.vulnerabilities == results && r.logs == s.logs + [ScanLog(ts, SystemLevel, SynthesisMessage)]
    ensures r.(vulnerabilities := s.vulnerabilities, logs := s.logs) == s
  {
    AddLog(s.(vulnerabilities := results), ScanLog(ts, SystemLevel, SynthesisMessage))
  }

  /** `generateVerdict` settles: the verdict is stored, the status becomes terminal, the posture
      is logged and exactly one entry is put in front of the ledger. */
  function FinishVerdict(s: SessionState, meta: RepoMetadata, results: seq<Vulnerability>, v: SecurityVerdict,
                         ts: Timestamp, date: Timestamp): (r: SessionState)
    ensures r.verdict == Some(v)
    ensures r.status == Failed <==> v.result == Fail
    ensures r.status == Passed <==> v.result != Fail
    ensures r.logs == s.logs + [ScanLog(ts, SystemLevel, FinalizedMessage(v.result))]
    ensures |r.auditHistory| == |s.auditHistory| + 1 && r.auditHistory[1..] == s.auditHistory
    ensures r.auditHistory[0] == AuditEntryFor(date, meta, results, v)
    ensures r.(verdict := s.verdict, status := s.status, logs := s.logs, auditHistory := s.auditHistory) == s
  {
    var s1 := AddLog(s.(verdict := Some(v), status := StatusForVerdict(v.result)),
                     ScanLog(ts, SystemLevel, FinalizedMessage(v.result)));
    s1.(auditHistory := [AuditEntryFor(date, meta, results, v)] + s1.auditHistory)
  }

  /** `initiateAnalysis` run to its end with the given collaborator results. An empty URL
      changes nothing; the two lemmas below say what it does otherwise. */
  function InitiateAnalysis(s: SessionState, clock: AuditClock, metadata: Option<RepoMetadata>,
                            events: seq<ScanEvent>, results: seq<Vulnerability>, v: SecurityVerdict): (r: SessionState)
    ensures s.repoUrl == "" ==> r == s
  {
    if s.repoUrl == "" then s
    else
      var s1 := ReceiveMetadata(BeginAnalysis(s, clock.activated), metadata);
      if metadata.None? then s1
      else
        var s2 := ApplyScanEvents(s1, events);
        var s3 := FinishScan(s2, results, clock.synthesizing);
        FinishVerdict(s3, metadata.value, results, v, clock.finalized, clock.completedAt)
  }

  /** An unresolvable target: the audit stays SCANNING with the activation line as its only
      log line, and no findings, no verdict and no ledger entry. */
  lemma AnalysisWithoutMetadata(s: SessionState, clock: AuditClock, events: seq<ScanEvent>,
                                results: seq<Vulnerability>, v: SecurityVerdict)
    requires s.repoUrl != ""
    ensures var r := InitiateAnalysis(s, clock, None, events, results, v);
      && r.isStarted && r.status == Scanning && r.repoMetadata == None
      && r.verdict == None && r.vulnerabilities == [] && r.reasoning == None && r.fixData == None
      && r.stages == InitialPipelineStages() && r.auditHistory == s.auditHistory
      && r.logs == [ScanLog(clock.activated, SystemLevel, ActivationMessage)]
      && r.(isStarted := s.isStarted, status := s.status, repoMetadata := s.repoMetadata,
            verdict := s.verdict, vulnerabilities := s.vulnerabilities, reasoning := s.reasoning,
            fixData := s.fixData, stages := s.stages, logs := s.logs) == s
  {
    var s0 := BeginAnalysis(s, clock.activated);
    assert InitiateAnalysis(s, clock, None, events, results, v) == ReceiveMetadata(s0, None);
  }

  /** Replaying the scanner's callbacks over a fresh registry leaves each stage as registered
      except for its status, which is the last one reported for it, or PENDING. */
  lemma ScannedRegistry(s: SessionState, events: seq<ScanEvent>)
    requires s.stages == InitialPipelineStages()
    ensures var r := ApplyScanEvents(s, events).stages;
      && |r| == |InitialPipelineStages()|
      && forall i :: 0 <= i < |r| ==>
           r[i] == InitialPipelineStages()[i].(status := LastStatus(events, InitialPipelineStages()[i].id, Pending))
  {
    RegistryWellFormed();
  }

  /** The phases of `initiateAnalysis` after the metadata has resolved, from any state: the
      scanner's callbacks, the findings and the verdict. */
  lemma ScanToVerdict(s: SessionState, clock: AuditClock, meta: RepoMetadata, events: seq<ScanEvent>,
                      results: seq<Vulnerability>, v: SecurityVerdict)
    ensures var r := FinishVerdict(FinishScan(ApplyScanEvents(s, events), results, clock.synthesizing),
                                   meta, results, v, clock.finalized, clock.completedAt);
      && r.vulnerabilities == results && r.verdict == Some(v) && r.status == StatusForVerdict(v.result)
      && r.auditHistory == [AuditEntryFor(clock.completedAt, meta, results, v)] + s.auditHistory
      && r.logs == s.logs + EmittedLogs(events)
                   + [ScanLog(clock.synthesizing, SystemLevel, SynthesisMessage),
                      ScanLog(clock.finalized, SystemLevel, FinalizedMessage(v.result))]
      && r.stages == ApplyScanEvents(s, events).stages
      && r.(vulnerabilities := s.vulnerabilities, verdict := s.verdict, status := s.status,
            auditHistory := s.auditHistory, logs := s.logs, stages := s.stages) == s
  {
    var s2 := ApplyScanEvents(s, events);
    var s3 := FinishScan(s2, results, clock.synthesizing);
    assert s3.logs == s.logs + EmittedLogs(events) + [ScanLog(clock.synthesizing, SystemLevel, SynthesisMessage)];
  }

  /** A resolved target: the findings are the scan's, the verdict is the synthesized one and
      decides the terminal status, the ledger gains exactly one entry in front, and the log
      holds the activation line, the scanner's lines, and the synthesis and posture lines.
      Each registry stage ends with the last status the scanner reported for it, or PENDING;
      the verdict is stored whatever those statuses are. */
  lemma AnalysisWithMetadata(s: SessionState, clock: AuditClock, meta: RepoMetadata, events: seq<ScanEvent>,
                             results: seq<Vulnerability>, v: SecurityVerdict)
    requires s.repoUrl != ""
    ensures var r := InitiateAnalysis(s, clock, Some(meta), events, results, v);
      && r.isStarted && r.repoMetadata == Some(meta)
      && r.vulnerabilities == results && r.verdict == Some(v)
      && (r.status == Failed <==> v.result == Fail) && (r.status == Passed <==> v.result != Fail)
      && r.auditHistory == [AuditEntryFor(clock.completedAt, meta, results, v)] + s.auditHistory
      && r.logs == [ScanLog(clock.activated, SystemLevel, ActivationMessage)] + EmittedLogs(events)
                   + [ScanLog(clock.synthesizing, SystemLevel, SynthesisMessage),
                      ScanLog(clock.finalized, SystemLevel, FinalizedMessage(v.result))]
      && r.reasoning == None && r.fixData == None
      && |r.stages| == |InitialPipelineStages()|
      && (forall i :: 0 <= i < |r.stages| ==>
            r.stages[i] == InitialPipelineStages()[i].(status := LastStatus(events, InitialPipelineStages()[i].id, Pending)))
      && r.(isStarted := s.isStarted, repoMetadata := s.repoMetadata, vulnerabilities := s.vulnerabilities,
            verdict := s.verdict, status := s.status, auditHistory := s.auditHistory, logs := s.logs,
            reasoning := s.reasoning, fixData := s.fixData, stages := s.stages) == s
  {
    var s1 := ReceiveMetadata(BeginAnalysis(s, clock.activated), Some(meta));
    assert s1.logs == [ScanLog(clock.activated, SystemLevel, ActivationMessage)];
    ScanToVerdict(s1, clock, meta, events, results, v);
    ScannedRegistry(s1, events);
  }

  /** `examineFinding` up to its `await`: the finding is selected and a placeholder explanation
      shown; the fix of an earlier finding is not cleared. */
  function BeginExamine(s: SessionState, vuln: Vulnerability): (r: SessionState)
    ensures r.selectedVuln == Some(vuln) && r.reasoning == Some(ExaminePlaceholder)
    ensures r.(selectedVuln := s.selectedVuln, reasoning := s.reasoning) == s
  {
    s.(selectedVuln := Some(vuln), reasoning := Some(ExaminePlaceholder))
  }

  /** `analyzeVulnerability` settles: its text becomes the explanation. */
  function FinishExamine(s: SessionState, analysis: string): (r: SessionState)
    ensures r.reasoning == Some(analysis) && r.(reasoning := s.reasoning) == s
  {
    s.(reasoning := Some(analysis))
  }

  /** `examineFinding` run to its end. */
  function ExamineFinding(s: SessionState, vuln: Vulnerability, analysis: string): (r: SessionState)
    ensures r.selectedVuln == Some(vuln) && r.reasoning == Some(analysis) && r.fixData == s.fixData
    ensures r.(selectedVuln := s.selectedVuln, reasoning := s.reasoning) == s
  {
    FinishExamine(BeginExamine(s, vuln), analysis)
  }

  /** `applySelfHeal` up to its `await`: nothing without a selected finding; otherwise healing
      starts and the patch request is logged with the finding's id. */
  function BeginSelfHeal(s: SessionState, ts: Timestamp): (r: SessionState)
    ensures s.selectedVuln.None? ==> r == s
    ensures s.selectedVuln.Some? ==>
      && r.isHealing && r.logs == s.logs + [ScanLog(ts, SystemLevel, PatchMessage(s.selectedVuln.value.id))]
      && r.(isHealing := s.isHealing, logs := s.logs) == s
  {
    if s.selectedVuln.None? then s
    else AddLog(s.(isHealing := true), ScanLog(ts, SystemLevel, PatchMessage(s.selectedVuln.value.id)))
  }

  /** `suggestFix` settles: the suggestion is stored and healing ends. The handler does not look
      again at the selection, so this applies even when the panel was closed meanwhile. */
  function FinishSelfHeal(s: SessionState, fix: FixData): (r: SessionState)
    ensures r.fixData == Some(fix) && !r.isHealing
    ensures r.(fixData := s.fixData, isHealing := s.isHealing) == s
  {
    s.(fixData := Some(fix), isHealing := false)
  }

  /** `applySelfHeal` run to its end. */
  function ApplySelfHeal(s: SessionState, ts: Timestamp, fix: FixData): (r: SessionState)
    ensures s.selectedVuln.None? ==> r == s
    ensures s.selectedVuln.Some? ==>
      && r.fixData == Some(fix) && !r.isHealing
      && r.logs == s.logs + [ScanLog(ts, SystemLevel, PatchMessage(s.selectedVuln.value.id))]
      && r.(fixData := s.fixData, isHealing := s.isHealing, logs := s.logs) == s
  {
    if s.selectedVuln.None? then s else FinishSelfHeal(BeginSelfHeal(s, ts), fix)
  }

  /** The close button of the side panel: selection and fix are dropped, nothing else. */
  function ClosePanel(s: SessionState): (r: SessionState)
    ensures r.selectedVuln == None && r.fixData == None
    ensures r.(selectedVuln := s.selectedVuln, fixData := s.fixData) == s
  {
    s.(selectedVuln := None, fixData := None)
  }

  /** `handleChatSubmit` up to its `await`: a blank input changes nothing; otherwise the input
      becomes a user turn, the input box is cleared and typing starts. */
  function BeginChat(s: SessionState): (r: SessionState)
    ensures IsBlank(s.chatInput) ==> r == s
    ensures !IsBlank(s.chatInput) ==>
      && r.chatMessages == s.chatMessages + [ChatMessage(User, s.chatInput)]
      && r.chatInput == "" && r.isTyping
      && r.(chatMessages := s.chatMessages, chatInput := s.chatInput, isTyping := s.isTyping) == s
  {
    if Trim(s.chatInput) == "" then s
    else s.(chatMessages := s.chatMessages + [ChatMessage(User, s.chatInput)], chatInput := "", isTyping := true)
  }

  /** The chat request settles: one model turn is appended and typing ends. */
  function FinishChat(s: SessionState, reply: ChatReply): (r: SessionState)
    ensures r.chatMessages == s.chatMessages + [ChatMessage(Model, ReplyText(reply))] && !r.isTyping
    ensures r.(chatMessages := s.chatMessages, isTyping := s.isTyping) == s
  {
    s.(chatMessages := s.chatMessages + [ChatMessage(Model, ReplyText(reply))], isTyping := false)
  }

  /** `handleChatSubmit` run to its end: a blank input changes nothing; otherwise exactly two
      turns are appended, the user's first. */
  function HandleChatSubmit(s: SessionState, reply: ChatReply): (r: SessionState)
    ensures IsBlank(s.chatInput) ==> r == s
    ensures !IsBlank(s.chatInput) ==>
      && r.chatMessages == s.chatMessages + [ChatMessage(User, s.chatInput), ChatMessage(Model, ReplyText(reply))]
      && r.chatInput == "" && !r.isTyping
      && r.(chatMessages := s.chatMessages, chatInput := s.chatInput, isTyping := s.isTyping) == s
  {
    if Trim(s.chatInput) == "" then s else FinishChat(BeginChat(s), reply)
  }

  // ---------------------------------------------------------------------------------------
  // Properties of the transitions
  // ---------------------------------------------------------------------------------------

  /** Resetting twice is resetting once (with the later time stamp). */
  lemma ResetIdempotent(s: SessionState, t1: Timestamp, t2: Timestamp)
    ensures HandleReset(HandleReset(s, t1), t2) == HandleReset(s, t2)
  {
  }

  /** After a reset the URL is empty, so starting an audit right away does nothing. */
  lemma AnalysisAfterResetIsNoop(s: SessionState, ts: Timestamp, clock: AuditClock, metadata: Option<RepoMetadata>,
                                 events: seq<ScanEvent>, results: seq<Vulnerability>, v: SecurityVerdict)
    ensures InitiateAnalysis(HandleReset(s, ts), clock, metadata, events, results, v) == HandleReset(s, ts)
  {
  }

  /** Starting an audit does not depend on the current status: a second submit while one audit
      is SCANNING starts over and discards the first audit's log and findings. */
  lemma BeginAnalysisIgnoresStatus(s: SessionState, other: PipelineStatus, ts: Timestamp)
    ensures BeginAnalysis(s.(status := other), ts) == BeginAnalysis(s, ts).(status := if s.repoUrl == "" then other else Scanning)
  {
  }

  /** A remediation result that arrives after the panel was closed is still stored. */
  lemma LateFixAfterClose(s: SessionState, ts: Timestamp, fix: FixData)
    requires s.selectedVuln.Some?
    ensures var r := FinishSelfHeal(ClosePanel(BeginSelfHeal(s, ts)), fix);
            r.selectedVuln == None && r.fixData == Some(fix)
  {
  }

  /** The analysis of finding `a` that arrives after finding `b` was selected replaces the
      explanation of `b`: the handler does not check that the selection is still `a`. */
  lemma StaleAnalysisOverwrites(s: SessionState, a: Vulnerability, b: Vulnerability, analysis: string)
    ensures var r := FinishExamine(BeginExamine(BeginExamine(s, a), b), analysis);
            r.selectedVuln == Some(b) && r.reasoning == Some(analysis)
  {
  }

  /** Two messages sent before the first reply arrives: that reply is appended after both user
      turns, and typing ends although the second request is still pending. */
  lemma LateReplyAfterSecondMessage(s: SessionState, second: string, reply: ChatReply)
    requires !IsBlank(s.chatInput) && !IsBlank(second)
    ensures var r := FinishChat(BeginChat(BeginChat(s).(chatInput := second)), reply);
            && r.chatMessages == s.chatMessages + [ChatMessage(User, s.chatInput), ChatMessage(User, second),
                                                   ChatMessage(Model, ReplyText(reply))]
            && !r.isTyping
  {
  }

  /** A verdict that arrives after a reset still sets a terminal status and adds a ledger entry. */
  lemma StaleVerdictAfterReset(s: SessionState, ts: Timestamp, meta: RepoMetadata, results: seq<Vulnerability>,
                               v: SecurityVerdict, t1: Timestamp, date: Timestamp)
    ensures var r := FinishVerdict(HandleReset(s, ts), meta, results, v, t1, date);
            !r.isStarted && r.status != Idle && |r.auditHistory| == |s.auditHistory| + 1
  {
  }

  // ---------------------------------------------------------------------------------------
  // Any interleaving of the phases
  // ---------------------------------------------------------------------------------------

  /** Everything that can happen to the session: a user action, a controlled-input edit, or the
      settling of an awaited call. Phases of different handler calls may interleave in any
      order, since the handlers have no guard against stale results. */
  datatype Action =
    | Reset(ts: Timestamp)
    | EditUrl(url: string)
    | EditChat(input: string)
    | Navigate(view: string)
    | ScanCallback(event: ScanEvent)
    | Submit(ts: Timestamp)
    | MetadataArrived(metadata: Option<RepoMetadata>)
    | ScanArrived(results: seq<Vulnerability>, ts: Timestamp)
    | VerdictArrived(meta: RepoMetadata, results: seq<Vulnerability>, verdict: SecurityVerdict, ts: Timestamp, date: Timestamp)
    | Select(vuln: Vulnerability)
    | AnalysisArrived(analysis: string)
    | RequestHeal(ts: Timestamp)
    | FixArrived(fix: FixData)
    | ClosePanelClicked
    | SendChat
    | ReplyArrived(reply: ChatReply)

  /** One action taken in state `s`. Only a settled verdict touches the ledger, and it puts
      exactly one entry, for that audit, in front; a reset leaves the ledger alone. */
  function Apply(s: SessionState, a: Action): (r: SessionState)
    ensures r.auditHistory == if a.VerdictArrived? then [AuditEntryFor(a.date, a.meta, a.results, a.verdict)] + s.auditHistory
                              else s.auditHistory
  {
    match a
    case Reset(ts) => HandleReset(s, ts)
    case EditUrl(url) => s.(repoUrl := url)
    case EditChat(input) => s.(chatInput := input)
    case Navigate(view) => s.(activeView := view)
    case ScanCallback(e) => ApplyScanEvent(s, e)
    case Submit(ts) => BeginAnalysis(s, ts)
    case MetadataArrived(m) => ReceiveMetadata(s, m)
    case ScanArrived(results, ts) => FinishScan(s, results, ts)
    case VerdictArrived(meta, results, v, ts, date) => FinishVerdict(s, meta, results, v, ts, date)
    case Select(vuln) => BeginExamine(s, vuln)
    case AnalysisArrived(analysis) => FinishExamine(s, analysis)
    case RequestHeal(ts) => BeginSelfHeal(s, ts)
    case FixArrived(fix) => FinishSelfHeal(s, fix)
    case ClosePanelClicked => ClosePanel(s)
    case SendChat => BeginChat(s)
    case ReplyArrived(reply) => FinishChat(s, reply)
  }

  /** How many audits settle among `actions`. */
  function VerdictsIn(actions: seq<Action>): nat
    decreases |actions|
  {
    if actions == [] then 0 else (if actions[0].VerdictArrived? then 1 else 0) + VerdictsIn(actions[1..])
  }

  /** The actions taken one after another, first to last. The ledger grows by one entry per
      settled audit and by nothing else. */
  function Run(s: SessionState, actions: seq<Action>): (r: SessionState)
    ensures |r.auditHistory| == |s.auditHistory| + VerdictsIn(actions)
    decreases |actions|
  {
    if actions == [] then s else Run(Apply(s, actions[0]), actions[1..])
  }

  /** Running two lists of actions one after the other is running their concatenation. */
  lemma {:induction false} RunConcat(s: SessionState, first: seq<Action>, second: seq<Action>)
    ensures Run(s, first + second) == Run(Run(s, first), second)
    decreases |first|
  {
    if first != [] {
      assert (first + second)[0] == first[0];
      assert (first + second)[1..] == first[1..] + second;
      RunConcat(Apply(s, first[0]), first[1..], second);
    } else {
      assert first + second == second;
    }
  }

  lemma RunOne(s: SessionState, a: Action)
    ensures Run(s, [a]) == Apply(s, a)
  {
    assert [a][1..] == [];
  }

  lemma RunTwo(s: SessionState, a: Action, b: Action)
    ensures Run(s, [a, b]) == Apply(Apply(s, a), b)
  {
    assert [a, b][1..] == [b];
    RunOne(Apply(s, a), b);
  }

  /** The scanner's callbacks as actions, in the order it makes them. */
  function ScanCallbacks(events: seq<ScanEvent>): (actions: seq<Action>)
    ensures |actions| == |events|
    ensures forall i :: 0 <= i < |events| ==> actions[i] == ScanCallback(events[i])
  {
    seq(|events|, i requires 0 <= i < |events| => ScanCallback(events[i]))
  }

  /** Replaying the scanner's callbacks one action at a time is `ApplyScanEvents`. */
  lemma {:induction false} RunScanCallbacks(s: SessionState, events: seq<ScanEvent>)
    ensures Run(s, ScanCallbacks(events)) == ApplyScanEvents(s, events)
    decreases |events|
  {
    if events != [] {
      var init := events[..|events| - 1];
      var last := events[|events| - 1];
      assert ScanCallbacks(events) == ScanCallbacks(init) + [ScanCallback(last)];
      RunConcat(s, ScanCallbacks(init), [ScanCallback(last)]);
      RunScanCallbacks(s, init);
      RunOne(ApplyScanEvents(s, init), ScanCallback(last));
    }
  }

  /** `examineFinding` run to its end is its two phases, taken with nothing in between. */
  lemma ExamineFindingIsRun(s: SessionState, vuln: Vulnerability, analysis: string)
    ensures ExamineFinding(s, vuln, analysis) == Run(s, [Select(vuln), AnalysisArrived(analysis)])
  {
    RunTwo(s, Select(vuln), AnalysisArrived(analysis));
  }

  // The handlers' phases as actions, one step at a time (kept apart from the lemmas about `Run`
  // below so that each proof only unfolds the cases of `Apply` it needs).

  lemma SelfHealPhases(s: SessionState, ts: Timestamp, fix: FixData)
    ensures s.selectedVuln.Some? ==> ApplySelfHeal(s, ts, fix) == Apply(Apply(s, RequestHeal(ts)), FixArrived(fix))
    ensures s.selectedVuln.None? ==> ApplySelfHeal(s, ts, fix) == Apply(s, RequestHeal(ts))
  {
  }

  lemma ChatPhases(s: SessionState, reply: ChatReply)
    ensures !IsBlank(s.chatInput) ==> HandleChatSubmit(s, reply) == Apply(Apply(s, SendChat), ReplyArrived(reply))
    ensures IsBlank(s.chatInput) ==> HandleChatSubmit(s, reply) == Apply(s, SendChat)
  {
  }

  lemma SubmitPhases(s: SessionState, ts: Timestamp, metadata: Option<RepoMetadata>)
    ensures Apply(Apply(s, Submit(ts)), MetadataArrived(metadata)) == ReceiveMetadata(BeginAnalysis(s, ts), metadata)
  {
  }

  lemma ScanPhase(s: SessionState, results: seq<Vulnerability>, ts: Timestamp)
    ensures Apply(s, ScanArrived(results, ts)) == FinishScan(s, results, ts)
  {
  }

  lemma VerdictPhase(s: SessionState, a: Action)
    requires a.VerdictArrived?
    ensures Apply(s, a) == FinishVerdict(s, a.meta, a.results, a.verdict, a.ts, a.date)
  {
  }

  /** `applySelfHeal` run to its end is its two phases, or only the first when no finding is
      selected and the handler returns before its `await`. */
  lemma ApplySelfHealIsRun(s: SessionState, ts: Timestamp, fix: FixData)
    ensures s.selectedVuln.Some? ==> ApplySelfHeal(s, ts, fix) == Run(s, [RequestHeal(ts), FixArrived(fix)])
    ensures s.selectedVuln.None? ==> ApplySelfHeal(s, ts, fix) == Run(s, [RequestHeal(ts)])
  {
    SelfHealPhases(s, ts, fix);
    RunTwo(s, RequestHeal(ts), FixArrived(fix));
    RunOne(s, RequestHeal(ts));
  }

  /** `handleChatSubmit` run to its end is its two phases, or only the first when the input is
      blank and the handler returns before its `await`. */
  lemma HandleChatSubmitIsRun(s: SessionState, reply: ChatReply)
    ensures !IsBlank(s.chatInput) ==> HandleChatSubmit(s, reply) == Run(s, [SendChat, ReplyArrived(reply)])
    ensures IsBlank(s.chatInput) ==> HandleChatSubmit(s, reply) == Run(s, [SendChat])
  {
    ChatPhases(s, reply);
    RunTwo(s, SendChat, ReplyArrived(reply));
    RunOne(s, SendChat);
  }

  /** `initiateAnalysis` stops after its submission phase for an empty URL, and after the
      metadata phase when the target does not resolve. */
  lemma InitiateAnalysisStopsEarly(s: SessionState, clock: AuditClock, metadata: Option<RepoMetadata>,
                                   events: seq<ScanEvent>, results: seq<Vulnerability>, v: SecurityVerdict)
    ensures s.repoUrl == "" ==>
              InitiateAnalysis(s, clock, metadata, events, results, v) == Run(s, [Submit(clock.activated)])
    ensures s.repoUrl != "" && metadata.None? ==>
              InitiateAnalysis(s, clock, metadata, events, results, v)
              == Run(s, [Submit(clock.activated), MetadataArrived(metadata)])
  {
    RunOne(s, Submit(clock.activated));
    SubmitPhases(s, clock.activated, metadata);
    RunTwo(s, Submit(clock.activated), MetadataArrived(metadata));
  }

  /** `initiateAnalysis` for a resolved target is its phases in order, nothing in between: the
      submission, the metadata, the scanner's callbacks, the findings and the verdict. */
  lemma InitiateAnalysisIsRun(s: SessionState, clock: AuditClock, meta: RepoMetadata,
                              events: seq<ScanEvent>, results: seq<Vulnerability>, v: SecurityVerdict)
    requires s.repoUrl != ""
    ensures InitiateAnalysis(s, clock, Some(meta), events, results, v)
            == Run(s, [Submit(clock.activated), MetadataArrived(Some(meta))] + ScanCallbacks(events)
                      + [ScanArrived(results, clock.synthesizing),
                         VerdictArrived(meta, results, v, clock.finalized, clock.completedAt)])
  {
    var head := [Submit(clock.activated), MetadataArrived(Some(meta))];
    var tail := [ScanArrived(results, clock.synthesizing), VerdictArrived(meta, results, v, clock.finalized, clock.completedAt)];
    var s1 := ReceiveMetadata(BeginAnalysis(s, clock.activated), Some(meta));
    var s2 := ApplyScanEvents(s1, events);
    SubmitPhases(s, clock.activated, Some(meta));
    RunTwo(s, head[0], head[1]);
    RunConcat(s, head, ScanCallbacks(events));
    RunScanCallbacks(s1, events);
    ScanPhase(s2, results, clock.synthesizing);
    VerdictPhase(FinishScan(s2, results, clock.synthesizing), tail[1]);
    RunTwo(s2, tail[0], tail[1]);
    RunConcat(s, head + ScanCallbacks(events), tail);
  }

  /** The statuses the handlers assign: ANALYZING, VERDICT and HEALING never are. */
  predicate StatusInUse(st: PipelineStatus) {
    st == Idle || st == Scanning || st == Passed || st == Failed
  }

  /** A stored verdict agrees with the status it led to. */
  predicate VerdictAgrees(s: SessionState) {
    s.verdict.Some? ==> s.status == StatusForVerdict(s.verdict.value.result)
  }

  /** The facts that hold in every reachable state: the status is one the handlers assign, the
      stage list is the registry up to the statuses, and a stored verdict agrees with the status. */
  predicate Valid(s: SessionState) {
    StatusInUse(s.status) && SameShape(s.stages, InitialPipelineStages()) && VerdictAgrees(s)
  }

  /** In a Valid state the stage ids are those of the registry, so they are pairwise distinct
      and a stage update changes the status of one stage at most. */
  lemma ValidStageIdsDistinct(s: SessionState)
    requires Valid(s)
    ensures Distinct(StageIds(s.stages))
    ensures forall id, st: ActiveStatus, i, j :: 0 <= i < |s.stages| && 0 <= j < |s.stages| && i != j && s.stages[i].id == id ==>
              UpdateStage(s.stages, id, st)[j] == s.stages[j]
  {
    SameShapeKeepsIds(s.stages, InitialPipelineStages());
    RegistryWellFormed();
  }

  lemma InitialIsValid()
    ensures Valid(Initial())
  {
    SameShapeReflexive(InitialPipelineStages());
  }

  lemma ApplyKeepsStatus(s: SessionState, a: Action)
    requires StatusInUse(s.status) && VerdictAgrees(s)
    ensures StatusInUse(Apply(s, a).status) && VerdictAgrees(Apply(s, a))
  {
    match a
    case Reset(ts) =>
    case EditUrl(url) =>
    case EditChat(input) =>
    case Navigate(view) =>
    case ScanCallback(e) =>
    case Submit(ts) =>
    case MetadataArrived(m) =>
    case ScanArrived(results, ts) =>
    case VerdictArrived(meta, results, v, ts, date) =>
    case Select(vuln) =>
    case AnalysisArrived(analysis) =>
    case RequestHeal(ts) =>
    case FixArrived(fix) =>
    case ClosePanelClicked =>
    case SendChat =>
    case ReplyArrived(reply) =>
  }

  lemma ApplyKeepsShape(s: SessionState, a: Action)
    requires SameShape(s.stages, InitialPipelineStages())
    ensures SameShape(Apply(s, a).stages, InitialPipelineStages())
  {
    match a
    case Reset(ts) => SameShapeReflexive(InitialPipelineStages());
    case EditUrl(url) =>
    case EditChat(input) =>
    case Navigate(view) =>
    case ScanCallback(e) => SameShapeTransitive(ApplyScanEvent(s, e).stages, s.stages, InitialPipelineStages());
    case Submit(ts) => SameShapeReflexive(InitialPipelineStages());
    case MetadataArrived(m) =>
    case ScanArrived(results, ts) =>
    case VerdictArrived(meta, results, v, ts, date) =>
    case Select(vuln) =>
    case AnalysisArrived(analysis) =>
    case RequestHeal(ts) =>
    case FixArrived(fix) =>
    case ClosePanelClicked =>
    case SendChat =>
    case ReplyArrived(reply) =>
  }

  lemma ApplyKeepsValid(s: SessionState, a: Action)
    requires Valid(s)
    ensures Valid(Apply(s, a))
  {
    ApplyKeepsStatus(s, a);
    ApplyKeepsShape(s, a);
  }

  /** Every action keeps Valid, so every state reachable from the initial one is Valid. */
  lemma {:induction false} RunKeepsValid(s: SessionState, actions: seq<Action>)
    requires Valid(s)
    ensures Valid(Run(s, actions))
    decreases |actions|
  {
    if actions != [] {
      ApplyKeepsValid(s, actions[0]);
      RunKeepsValid(Apply(s, actions[0]), actions[1..]);
    }
  }

  /** `before` is the tail of `now`: entries were only put in front. */
  predicate IsSuffix<T(==)>(before: seq<T>, now: seq<T>) {
    |before| <= |now| && now[|now| - |before|..] == before
  }

  /** `before` is the head of `now`: entries were only appended. */
  predicate IsPrefix<T(==)>(before: seq<T>, now: seq<T>) {
    |before| <= |now| && now[..|before|] == before
  }

  lemma ApplyGrowsLedger(s: SessionState, a: Action)
    ensures IsSuffix(s.auditHistory, Apply(s, a).auditHistory)
  {
    match a
    case Reset(ts) =>
    case EditUrl(url) =>
    case EditChat(input) =>
    case Navigate(view) =>
    case ScanCallback(e) =>
    case Submit(ts) =>
    case MetadataArrived(m) =>
    case ScanArrived(results, ts) =>
    case VerdictArrived(meta, results, v, ts, date) =>
      var h := FinishVerdict(s, meta, results, v, ts, date).auditHistory;
      assert h[|h| - |s.auditHistory|..] == h[1..];
    case Select(vuln) =>
    case AnalysisArrived(analysis) =>
    case RequestHeal(ts) =>
    case FixArrived(fix) =>
    case ClosePanelClicked =>
    case SendChat =>
    case ReplyArrived(reply) =>
  }

  lemma ApplyGrowsChat(s: SessionState, a: Action)
    ensures IsPrefix(s.chatMessages, Apply(s, a).chatMessages)
  {
    match a
    case Reset(ts) =>
    case EditUrl(url) =>
    case EditChat(input) =>
    case Navigate(view) =>
    case ScanCallback(e) =>
    case Submit(ts) =>
    case MetadataArrived(m) =>
    case ScanArrived(results, ts) =>
    case VerdictArrived(meta, results, v, ts, date) =>
    case Select(vuln) =>
    case AnalysisArrived(analysis) =>
    case RequestHeal(ts) =>
    case FixArrived(fix) =>
    case ClosePanelClicked =>
    case SendChat =>
    case ReplyArrived(reply) =>
  }

  /** The ledger only grows at its front and the chat only grows at its end, whatever happens,
      resets included. */
  lemma {:induction false} LedgerAndChatOnlyGrow(s: SessionState, actions: seq<Action>)
    ensures IsSuffix(s.auditHistory, Run(s, actions).auditHistory)
    ensures IsPrefix(s.chatMessages, Run(s, actions).chatMessages)
    decreases |actions|
  {
    if actions != [] {
      var s1 := Apply(s, actions[0]);
      ApplyGrowsLedger(s, actions[0]);
      ApplyGrowsChat(s, actions[0]);
      LedgerAndChatOnlyGrow(s1, actions[1..]);
      var r := Run(s1, actions[1..]);
      assert r.auditHistory[|r.auditHistory| - |s.auditHistory|..]
          == r.auditHistory[|r.auditHistory| - |s1.auditHistory|..][|s1.auditHistory| - |s.auditHistory|..];
      assert r.chatMessages[..|s.chatMessages|] == r.chatMessages[..|s1.chatMessages|][..|s.chatMessages|];
    }
  }
}
