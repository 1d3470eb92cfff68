/** The `App` component of App.tsx as an object: one field per state cell, one method per
    handler (and per phase of a handler that awaits). Each method is proved to take the
    session to the state that the matching function of SessionModel gives. */
module App {
  import opened Types
  import opened Stages
  import opened SessionModel

  class Session {
    var activeView: string
    var isStarted: bool
    var repoUrl: string
    var repoMetadata: Option<RepoMetadata>
    var stages: seq<PipelineStage>
    var status: PipelineStatus
    var vulnerabilities: seq<Vulnerability>
    var selectedVuln: Option<Vulnerability>
    var reasoning: Option<string>
    var verdict: Option<SecurityVerdict>
    var isHealing: bool
    var fixData: Option<FixData>
    var logs: seq<ScanLog>
    var auditHistory: seq<AuditEntry>
    var chatMessages: seq<ChatMessage>
    var chatInput: string
    var isTyping: bool

    /** The current values of all the state cells. */
    function View(): SessionState
      reads this
    {
      SessionState(activeView, isStarted, repoUrl, repoMetadata, stages, status, vulnerabilities,
                   selectedVuln, reasoning, verdict, isHealing, fixData, logs, auditHistory,
                   chatMessages, chatInput, isTyping)
    }

    /** The `useState` initial values. */
    constructor ()
      ensures View() == Initial()
    {
      activeView := DefaultView;
      isStarted := false;
      repoUrl := "";
      repoMetadata := None;
      stages := InitialPipelineStages();
      status := Idle;
      vulnerabilities := [];
      selectedVuln := None;
      reasoning := None;
      verdict := None;
      isHealing := false;
      fixData := None;
      logs := [];
      auditHistory := [];
      chatMessages := [];
      chatInput := "";
      isTyping := false;
    }

    /** `addLog`. */
    method AddLog(entry: ScanLog)
      modifies this
      ensures View() == SessionModel.AddLog(old(View()), entry)
    {
      logs := logs + [entry];
    }

    /** The `onChange` of the target input. */
    method EditRepoUrl(url: string)
      modifies this
      ensures View() == old(View()).(repoUrl := url)
    {
      repoUrl := url;
    }

    /** The `onChange` of the chat input. */
    method EditChatInput(input: string)
      modifies this
      ensures View() == old(View()).(chatInput := input)
    {
      chatInput := input;
    }

    /** `setActiveView`, the sidebar's navigation. */
    method Navigate(view: string)
      modifies this
      ensures View() == old(View()).(activeView := view)
    {
      activeView := view;
    }

    /** The state updates `handleReset` and `initiateAnalysis` share. */
    method ClearAudit()
      modifies this
      ensures View() == SessionModel.ClearAudit(old(View()))
    {
      stages := ResetStatuses(InitialPipelineStages());
      vulnerabilities := [];
      verdict := None;
      reasoning := None;
      fixData := None;
      logs := [];
    }

    /** `handleReset`. The clears it shares with `initiateAnalysis` are made by `ClearAudit`,
        so the findings are cleared after the status and the stages are set rather than
        before; those three setters write different cells and read none. The log is cleared before the reset line
        is appended, as in the source. */
    method HandleReset(ts: Timestamp)
      modifies this
      ensures View() == SessionModel.HandleReset(old(View()), ts)
    {
      isStarted := false;
      repoUrl := "";
      repoMetadata := None;
      status := Idle;
      ClearAudit();
      selectedVuln := None;
      activeView := DefaultView;
      AddLog(ScanLog(ts, SystemLevel, ResetMessage));
    }

    /** `updateStageStatus`, the callback the scanner is given. */
    method UpdateStageStatus(id: string, st: ActiveStatus)
      modifies this
      ensures View() == SessionModel.UpdateStageStatus(old(View()), id, st)
    {
      stages := UpdateStage(stages, id, st);
    }

    /** `initiateAnalysis` up to `await fetchRepoContext`. `started` is false when the URL is
        empty and nothing happened. */
    method BeginAnalysis(ts: Timestamp) returns (started: bool)
      modifies this
      ensures started == (old(repoUrl) != "")
      ensures View() == SessionModel.BeginAnalysis(old(View()), ts)
    {
      if repoUrl == "" {
        return false;
      }
      isStarted := true;
      status := Scanning;
      ClearAudit();
      AddLog(ScanLog(ts, SystemLevel, ActivationMessage));
      started := true;
    }

    /** `fetchRepoContext` settles. */
    method ReceiveMetadata(metadata: Option<RepoMetadata>)
      modifies this
      ensures View() == SessionModel.ReceiveMetadata(old(View()), metadata)
    {
      repoMetadata := metadata;
    }

    /** One callback made by `orchestrateScan`. */
    method ApplyScanEvent(event: ScanEvent)
      modifies this
      ensures View() == SessionModel.ApplyScanEvent(old(View()), event)
    {
      match event {
        case Log(entry) => AddLog(entry);
        case StageChange(id, st) => UpdateStageStatus(id, st);
      }
    }

    /** While `orchestrateScan` runs it calls back `addLog` and `updateStageStatus`; `events`
        lists those calls in the order they are made. */
    method ReplayScan(events: seq<ScanEvent>)
      modifies this
      ensures View() == ApplyScanEvents(old(View()), events)
    {
      var i := 0;
      while i < |events|
        invariant 0 <= i <= |events|
        invariant View() == ApplyScanEvents(old(View()), events[..i])
      {
        ApplyScanEvent(events[i]);
        assert events[..i + 1][..i] == events[..i];
        i := i + 1;
      }
      assert events[..i] == events;
    }

    /** `orchestrateScan` settles with `results`. */
    method FinishScan(results: seq<Vulnerability>, ts: Timestamp)
      modifies this
      ensures View() == SessionModel.FinishScan(old(View()), results, ts)
    {
      vulnerabilities := results;
      AddLog(ScanLog(ts, SystemLevel, SynthesisMessage));
    }

    /** `generateVerdict` settles with `v`; `meta` and `results` are the audit's own. */
    method FinishVerdict(meta: RepoMetadata, results: seq<Vulnerability>, v: SecurityVerdict, ts: Timestamp, date: Timestamp)
      modifies this
      ensures View() == SessionModel.FinishVerdict(old(View()), meta, results, v, ts, date)
    {
      verdict := Some(v);
      status := StatusForVerdict(v.result);
      AddLog(ScanLog(ts, SystemLevel, FinalizedMessage(v.result)));
      RecordAudit(AuditEntryFor(date, meta, results, v));
    }

    /** Puts `entry` in front of the ledger. */
    method RecordAudit(entry: AuditEntry)
      modifies this
      ensures View() == old(View()).(auditHistory := [entry] + old(auditHistory))
    {
      auditHistory := [entry] + auditHistory;
    }

    /** `initiateAnalysis` from start to end, the collaborators answering with `metadata`,
        the callbacks `events` and the findings `results`, and the verdict `v`. */
    method InitiateAnalysis(clock: AuditClock, metadata: Option<RepoMetadata>, events: seq<ScanEvent>,
                            results: seq<Vulnerability>, v: SecurityVerdict)
      modifies this
      ensures View() == SessionModel.InitiateAnalysis(old(View()), clock, metadata, events, results, v)
    {
      var started := BeginAnalysis(clock.activated);
      if !started {
        return;
      }
      ReceiveMetadata(metadata);
      if metadata.Some? {
        ReplayScan(events);
        FinishScan(results, clock.synthesizing);
        FinishVerdict(metadata.value, results, v, clock.finalized, clock.completedAt);
      }
    }

    /** `examineFinding` up to `await analyzeVulnerability`. */
    method BeginExamine(vuln: Vulnerability)
      modifies this
      ensures View() == SessionModel.BeginExamine(old(View()), vuln)
    {
      selectedVuln := Some(vuln);
      reasoning := Some(ExaminePlaceholder);
    }

    /** `analyzeVulnerability` settles. */
    method FinishExamine(analysis: string)
      modifies this
      ensures View() == SessionModel.FinishExamine(old(View()), analysis)
    {
      reasoning := Some(analysis);
    }

    /** `examineFinding` from start to end. */
    method ExamineFinding(vuln: Vulnerability, analysis: string)
      modifies this
      ensures View() == SessionModel.ExamineFinding(old(View()), vuln, analysis)
    {
      BeginExamine(vuln);
      FinishExamine(analysis);
    }

    /** `applySelfHeal` up to `await suggestFix`; `started` is false without a selected finding. */
    method BeginSelfHeal(ts: Timestamp) returns (started: bool)
      modifies this
      ensures started == old(selectedVuln).Some?
      ensures View() == SessionModel.BeginSelfHeal(old(View()), ts)
    {
      if selectedVuln.None? {
        return false;
      }
      isHealing := true;
      AddLog(ScanLog(ts, SystemLevel, PatchMessage(selectedVuln.value.id)));
      started := true;
    }

    /** `suggestFix` settles. */
    method FinishSelfHeal(fix: FixData)
      modifies this
      ensures View() == SessionModel.FinishSelfHeal(old(View()), fix)
    {
      fixData := Some(fix);
      isHealing := false;
    }

    /** `applySelfHeal` from start to end. */
    method ApplySelfHeal(ts: Timestamp, fix: FixData)
      modifies this
      ensures View() == SessionModel.ApplySelfHeal(old(View()), ts, fix)
    {
      var started := BeginSelfHeal(ts);
      if started {
        FinishSelfHeal(fix);
      }
    }

    /** The close button of the remediation panel. */
    method ClosePanel()
      modifies this
      ensures View() == SessionModel.ClosePanel(old(View()))
    {
      selectedVuln := None;
      fixData := None;
    }

    /** `handleChatSubmit` up to its `await`; `started` is false for a blank input. */
    method BeginChatSubmit() returns (started: bool)
      modifies this
      ensures started == !Text.IsBlank(old(chatInput))
      ensures View() == BeginChat(old(View()))
    {
      if Text.Trim(chatInput) == "" {
        return false;
      }
      var userMsg := chatInput;
      chatMessages := chatMessages + [ChatMessage(User, userMsg)];
      chatInput := "";
      isTyping := true;
      started := true;
    }

    /** The chat request settles (the `try`, `catch` and `finally` of the handler). */
    method FinishChatSubmit(reply: ChatReply)
      modifies this
      ensures View() == FinishChat(old(View()), reply)
    {
      chatMessages := chatMessages + [ChatMessage(Model, ReplyText(reply))];
      isTyping := false;
    }

    /** `handleChatSubmit` from start to end. */
    method HandleChatSubmit(reply: ChatReply)
      modifies this
      ensures View() == SessionModel.HandleChatSubmit(old(View()), reply)
    {
      var started := BeginChatSubmit();
      if started {
        FinishChatSubmit(reply);
      }
    }
  }
}
