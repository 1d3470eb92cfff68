# CodeFortress session state machine in Dafny

This project models the session logic of the CodeFortress dashboard: the `App` component of
App.tsx, the stage registry `INITIAL_PIPELINE_STAGES` of constants.tsx, and the enumerations and
records of types.ts. The handlers are `addLog`, `handleReset`, `updateStageStatus`,
`initiateAnalysis`, `examineFinding`, `applySelfHeal`, the close button of the remediation panel
and `handleChatSubmit`.

The code is split into five modules:

- `Types` (Types.dfy): the types.ts enumerations and records. Each enumeration is listed in full,
  with its size and its distinctness proved. A verdict result has a string name and a parser that
  reads the name back.
- `Text` (Text.dfy): the two JavaScript built-ins the handlers depend on.
  - `String.prototype.trim`, with ECMAScript's whitespace set: a trimmed string is empty exactly
    when the input is blank.
  - `Number.prototype.toFixed(0)` on a non-negative integer, with a decimal round trip.
- `Stages` (Stages.dfy): the eight-stage registry and the two re-maps App.tsx applies to a stage
  list.
  - The reset of every status to PENDING (lines 74 and 94).
  - The status update of the stages carrying one id (lines 84-86).
- `SessionModel` (SessionModel.dfy): the component's state cells as one `SessionState` value,
  with one transition function per handler.
  - A handler that awaits is split into its phases. "Begin" is what runs before the first
    `await`. "Finish" is what runs when the awaited result arrives. The whole handler is their
    composition.
  - The results of the collaborators are parameters: `fetchRepoContext`, `orchestrateScan` and
    the callbacks it makes, `generateVerdict`, `analyzeVulnerability`, `suggestFix`, and the chat
    model. So are the time stamps.
  - An `Action` datatype and `Run` describe any interleaving of phases. Interleavings matter
    because the handlers have no guard against stale results.
  - Over any run, two things are proved. The invariant `Valid` holds throughout. The audit ledger
    only grows at its front, and the chat only grows at its end.
- `App` (App.dfy): the class `App.Session`. It has one field per state cell and one method per
  handler and per phase. Its `ensures` says that the new state `View()` is the `SessionModel`
  function applied to the old one.
  - Each method makes the assignments of the setters it models. The six clears that
    `handleReset` and `initiateAnalysis` share (stages, findings, verdict, explanation, fix, log)
    are one helper method, `ClearAudit`, in `initiateAnalysis`'s order (App.tsx:94-99).
  - So `setVulnerabilities` is the one setter of `handleReset` the model moves. It runs after
    `setStatus` and `setStages`, while App.tsx:72-74 runs it first. The three write different
    cells, and none reads a cell (`setStages` reads only the constant registry), so the result
    is the same.
  - The two writes of `logs` in each of these handlers keep the source's order: the clear
    (App.tsx:78, 99) comes first and the appended line (App.tsx:81, 101) after it. Swapped, the
    log would end empty.
  - The scanner's callbacks are replayed by a loop (`ReplayScan`).

The handlers have no guard where one would be expected to make a repeated or late event a
no-op. The model follows the code:

- `initiateAnalysis` has no guard against re-entry. Only the buttons are disabled (App.tsx:211,
  App.tsx:355). A second submit restarts the audit whatever the status is
  (`BeginAnalysisIgnoresStatus`).
- No handler checks whether its awaited result is still current.
  - A fix that arrives after the panel was closed is stored (`LateFixAfterClose`).
  - The analysis of one finding that arrives after another finding was selected becomes the
    explanation shown for the other finding (`StaleAnalysisOverwrites`).
  - A chat reply that arrives after a second message was sent is appended after that second
    message (`LateReplyAfterSecondMessage`).
  - A verdict that arrives after a reset still sets a terminal status and adds a ledger entry
    (`StaleVerdictAfterReset`).

Some other behaviours of the code that may be unexpected, again modelled as written:

- When the metadata is null, the status stays SCANNING. It does not go back to IDLE.
- The statuses ANALYZING, VERDICT and HEALING are declared but never assigned (`StatusInUse`).
- `examineFinding` does not clear the fix of a previously examined finding.

## Model

| member | source | states |
|---|---|---|
| Types.AllPipelineStatuses | types.ts:9-17 | PipelineStatus has exactly seven distinct values, and every value is among them |
| Types.AllRiskLevels | types.ts:2-7 | RiskLevel has exactly four distinct values, and every value is among them |
| Types.AllCategories | types.ts:21 | a finding's category is one of exactly eight distinct values |
| Types.AllVerdictResults | types.ts:33 | a verdict result is one of exactly four distinct values: PASS, WARN, FAIL, AUTO_FIX |
| Types.AllStageStatuses | types.ts:42 | a stage status is one of exactly four distinct values: PENDING, RUNNING, COMPLETED, ERROR |
| Types.VerdictNameRoundTrip | types.ts:33 | the string literal of every verdict result parses back to that result |
| Text.Trim | App.tsx:147 | `trim` gives the empty string exactly when the input consists of ECMAScript whitespace only; otherwise the result starts and ends with non-whitespace |
| Text.Decimal | App.tsx:122 | `toFixed(0)` of a non-negative integer is a non-empty digit string with no leading zero |
| Text.DecimalRoundTrip | App.tsx:122 | reading the printed digits back gives the printed number |
| Text.DecimalInjective | App.tsx:122 | two different counts never print alike |
| Stages.RegistryEntry | constants.tsx:16-23 | each registry stage starts PENDING with progress 0 |
| Stages.InitialPipelineStages | constants.tsx:15-24 | the registry has eight stages (their ids, statuses and progress: `RegistryWellFormed`) |
| Stages.RegistryWellFormed | constants.tsx:15-24 | the registry has exactly eight stages, from `secret_ml` to `self_heal`, all PENDING with progress 0, with pairwise distinct ids |
| Stages.StageIds | constants.tsx:16-23 | the id list has one id per stage, position by position |
| Stages.ResetStatuses | App.tsx:74 | the PENDING re-map keeps length, order, ids, labels and progress and sets every status to PENDING |
| Stages.ResetRegistryIsRegistry | App.tsx:74 | re-mapping the registry to PENDING gives back the registry itself |
| Stages.UpdateStage | App.tsx:84-86 | length, order, ids, labels and progress are kept; every stage with the id gets the status; every other stage is unchanged |
| Stages.UpdateAbsentIdIsNoop | App.tsx:84-86 | an id that no stage carries leaves the stage list unchanged |
| Stages.UpdateStageIdempotent | App.tsx:84-86 | the same update applied twice equals applying it once |
| Stages.SameShapeKeepsIds | App.tsx:84-86 | a re-map that keeps the shape keeps the id list |
| SessionModel.Initial | App.tsx:21-42 | the mount state: IDLE, not started, empty URL, the registry stages, no findings, no selection, no verdict, no fix, empty log, empty ledger, empty chat |
| SessionModel.StatusForVerdict | App.tsx:113 | the terminal status is FAILED exactly for FAIL and PASSED exactly for the other three results |
| SessionModel.SavingsLabel | App.tsx:122 | the label is `$0` exactly when there are no findings, and every label starts with `$`; otherwise its digits have no leading zero, as `toFixed(0)` prints, and it ends with `k` |
| SessionModel.SavingsRoundTrip | App.tsx:122 | the savings label of `n` findings reads back as `15·n` thousand |
| SessionModel.FinalizedMessage | App.tsx:114 | the posture line is the fixed prefix followed by a name that parses back to the verdict's result |
| SessionModel.PatchMessage | App.tsx:139 | the patch request line is the fixed prefix followed by the finding's id, unchanged |
| SessionModel.AuditEntryFor | App.tsx:116-123 | the entry has the date, the repository name and the verdict result; `vuln` is the first finding's title, or 'Clean Scan' for no findings; the savings read back as `15·count` and are '$0' exactly when there are no findings; with findings the amount has no leading zero |
| SessionModel.ReplyText | App.tsx:160-162 | the model turn is the reply text; it is 'Connection lost.' for an empty reply and 'Service error.' for a failure; it is never empty |
| SessionModel.AddLog | App.tsx:66 | the entry is appended to the log and nothing else changes |
| SessionModel.ClearAudit | App.tsx:72-78 | stages become the registry; findings, verdict, explanation, fix and log are emptied; nothing else changes |
| SessionModel.HandleReset | App.tsx:68-82 | IDLE, not started, empty URL, no metadata, registry stages, no findings, verdict, explanation, fix or selection, the default view, and a log of exactly the one SYSTEM reset line; the ledger, the chat, the chat input, `isTyping` and `isHealing` are kept |
| SessionModel.UpdateStageStatus | App.tsx:84-86 | only the stage list changes, as `UpdateStage` says |
| SessionModel.BeginAnalysis | App.tsx:88-101 | an empty URL changes nothing; otherwise the audit starts SCANNING with registry stages, cleared findings, verdict, explanation and fix, and a log of exactly the activation line; every other cell is kept |
| SessionModel.ReceiveMetadata | App.tsx:103-104 | only the metadata changes |
| SessionModel.ApplyScanEvent | App.tsx:107 | a scanner callback either appends its line to the log and leaves the stages alone, or applies the status update to the stages and leaves the log alone; nothing else changes |
| SessionModel.ApplyScanEvents | App.tsx:107 | the scanner's callbacks in order: the log grows by exactly the emitted lines; each stage keeps its id, label and progress and ends with the status of the last change reported for its id, or its own status when there was none; nothing else changes |
| SessionModel.ScannedRegistry | App.tsx:94-107 | the callbacks replayed over a fresh registry leave each registry stage as registered, with the last status reported for it or PENDING |
| SessionModel.FinishScan | App.tsx:108-110 | the findings become the scan results and the synthesis line is appended; nothing else changes |
| SessionModel.FinishVerdict | App.tsx:111-125 | the verdict is stored; the status is FAILED exactly for FAIL and PASSED otherwise; the posture line is appended; exactly one `AuditEntryFor` entry is prepended, with the old ledger following unchanged |
| SessionModel.InitiateAnalysis | App.tsx:88-91 | with an empty URL the whole handler changes no state at all |
| SessionModel.AnalysisWithoutMetadata | App.tsx:88-106 | null metadata: still SCANNING, no findings, no verdict, no ledger entry, registry stages, and a log of exactly the activation line; every other cell is kept |
| SessionModel.ScanToVerdict | App.tsx:107-125 | from any state, the scan, findings and verdict phases store the findings and the verdict, set the status the verdict decides, put one entry in front of the ledger, append the scanner's, synthesis and posture lines, and change nothing else |
| SessionModel.AnalysisWithMetadata | App.tsx:88-125 | resolved metadata: the findings are the scan results; the verdict is the synthesized one; FAILED exactly for FAIL and PASSED otherwise; exactly one entry is prepended to the ledger; the log is activation, the scanner's lines, synthesis and posture, in that order; each registry stage ends with the last status the scanner reported for it, or PENDING, and the verdict is stored whatever those statuses are |
| SessionModel.BeginExamine | App.tsx:129-131 | the finding is selected and the placeholder explanation is shown; nothing else changes |
| SessionModel.FinishExamine | App.tsx:132-133 | the analysis text becomes the explanation; nothing else changes |
| SessionModel.ExamineFinding | App.tsx:129-134 | the finding is selected and its analysis is the explanation; the fix is not cleared |
| SessionModel.BeginSelfHeal | App.tsx:136-139 | no selection: nothing changes; otherwise healing starts and one SYSTEM line naming the finding's id is appended |
| SessionModel.FinishSelfHeal | App.tsx:140-142 | the suggestion is stored as the fix and healing ends |
| SessionModel.ApplySelfHeal | App.tsx:136-143 | a no-op without a selection; otherwise exactly one SYSTEM log line, the suggestion as the fix, and `isHealing` false at the end; nothing else changes |
| SessionModel.ClosePanel | App.tsx:387 | the selection and the fix are cleared and nothing else changes |
| SessionModel.BeginChat | App.tsx:145-151 | a whitespace-only input changes nothing; otherwise the input is appended as a user turn, the input is cleared and typing starts |
| SessionModel.FinishChat | App.tsx:153-165 | exactly one model turn with `ReplyText` is appended and typing ends |
| SessionModel.HandleChatSubmit | App.tsx:145-166 | a whitespace-only input changes nothing; otherwise exactly two turns are appended, the user's and then the model's, the input is cleared and `isTyping` ends false |
| SessionModel.ResetIdempotent | App.tsx:68-82 | resetting twice equals resetting once with the later time stamp |
| SessionModel.AnalysisAfterResetIsNoop | App.tsx:68-90 | right after a reset the URL is empty, so starting an audit does nothing |
| SessionModel.BeginAnalysisIgnoresStatus | App.tsx:88-96 | starting an audit does not depend on the current status, so there is no re-entry guard |
| SessionModel.LateFixAfterClose | App.tsx:136-143 | a fix that arrives after the panel was closed is still stored |
| SessionModel.StaleAnalysisOverwrites | App.tsx:129-134 | the analysis of a finding that arrives after another finding was selected is shown as the explanation of the other finding |
| SessionModel.LateReplyAfterSecondMessage | App.tsx:145-166 | a reply to a first message that arrives after a second one was sent follows both user turns in the chat |
| SessionModel.StaleVerdictAfterReset | App.tsx:111-125 | a verdict that arrives after a reset still sets a terminal status and prepends one ledger entry |
| SessionModel.ValidStageIdsDistinct | App.tsx:84-86 | in every reachable state the stage ids are pairwise distinct, so an update changes at most one stage |
| SessionModel.InitialIsValid | App.tsx:21-42 | the mount state satisfies the invariant |
| SessionModel.ApplyKeepsValid | App.tsx:66-166 | every handler phase keeps the invariant: the status is one the handlers assign, the stages have the registry's shape, and a stored verdict agrees with the status |
| SessionModel.Apply | App.tsx:66-166 | one phase or user action; only a settled verdict changes the ledger, by putting that audit's entry in front, and a reset leaves the ledger alone |
| SessionModel.Run | App.tsx:66-166 | phases and actions in order; the ledger grows by exactly one entry per settled verdict |
| SessionModel.RunConcat | App.tsx:66-166 | running one list of actions and then another is running their concatenation |
| SessionModel.RunScanCallbacks | App.tsx:107 | the scanner's callbacks taken one action at a time give `ApplyScanEvents` |
| SessionModel.ExamineFindingIsRun | App.tsx:129-134 | `examineFinding` run to its end is its selection phase followed by its explanation phase |
| SessionModel.ApplySelfHealIsRun | App.tsx:136-142 | `applySelfHeal` run to its end is its request phase followed by its fix phase, or the request phase alone without a selected finding |
| SessionModel.HandleChatSubmitIsRun | App.tsx:145-166 | `handleChatSubmit` run to its end is its send phase followed by its reply phase, or the send phase alone for a blank input |
| SessionModel.InitiateAnalysisStopsEarly | App.tsx:88-105 | `initiateAnalysis` is the submission phase alone for an empty URL, and the submission and metadata phases when the target does not resolve |
| SessionModel.InitiateAnalysisIsRun | App.tsx:88-127 | `initiateAnalysis` for a resolved target is the submission, the metadata, each scanner callback, the findings and the verdict, in that order |
| SessionModel.RunKeepsValid | App.tsx:66-166 | any sequence of handler phases, interleaved in any order, keeps the invariant |
| SessionModel.LedgerAndChatOnlyGrow | App.tsx:116-125 | over any sequence of phases, resets included, the old ledger stays the ledger's tail and the old chat stays the chat's head |
| App.Session.constructor | App.tsx:21-42 | the fields start at the `useState` initial values |
| App.Session.AddLog | App.tsx:66 | the new state is `SessionModel.AddLog` of the old one |
| App.Session.EditRepoUrl | App.tsx:205 | only the URL changes |
| App.Session.EditChatInput | App.tsx:378 | only the chat input changes |
| App.Session.Navigate | App.tsx:335 | only the active view changes |
| App.Session.ClearAudit | App.tsx:72-78 | the new state is `SessionModel.ClearAudit` of the old one |
| App.Session.HandleReset | App.tsx:68-82 | the new state is `SessionModel.HandleReset` of the old one |
| App.Session.UpdateStageStatus | App.tsx:84-86 | the new state is `SessionModel.UpdateStageStatus` of the old one |
| App.Session.BeginAnalysis | App.tsx:88-101 | reports whether the audit started, which happens exactly for a non-empty URL; the new state is `SessionModel.BeginAnalysis` of the old one |
| App.Session.ReceiveMetadata | App.tsx:103-104 | the new state is `SessionModel.ReceiveMetadata` of the old one |
| App.Session.ApplyScanEvent | App.tsx:107 | the new state is `SessionModel.ApplyScanEvent` of the old one |
| App.Session.ReplayScan | App.tsx:107 | the loop over the scanner's callbacks reaches `SessionModel.ApplyScanEvents` of the old state |
| App.Session.FinishScan | App.tsx:108-110 | the new state is `SessionModel.FinishScan` of the old one |
| App.Session.RecordAudit | App.tsx:117-124 | the entry is put in front of the ledger and nothing else changes |
| App.Session.FinishVerdict | App.tsx:111-125 | the new state is `SessionModel.FinishVerdict` of the old one |
| App.Session.InitiateAnalysis | App.tsx:88-127 | the whole handler reaches `SessionModel.InitiateAnalysis` of the old state |
| App.Session.BeginExamine | App.tsx:129-131 | the new state is `SessionModel.BeginExamine` of the old one |
| App.Session.FinishExamine | App.tsx:132-133 | the new state is `SessionModel.FinishExamine` of the old one |
| App.Session.ExamineFinding | App.tsx:129-134 | the new state is `SessionModel.ExamineFinding` of the old one |
| App.Session.BeginSelfHeal | App.tsx:136-139 | reports whether healing started, which happens exactly with a selection; the new state is `SessionModel.BeginSelfHeal` of the old one |
| App.Session.FinishSelfHeal | App.tsx:140-142 | the new state is `SessionModel.FinishSelfHeal` of the old one |
| App.Session.ApplySelfHeal | App.tsx:136-143 | the new state is `SessionModel.ApplySelfHeal` of the old one |
| App.Session.ClosePanel | App.tsx:387 | the new state is `SessionModel.ClosePanel` of the old one |
| App.Session.BeginChatSubmit | App.tsx:145-151 | reports whether the input was sent, which happens exactly when it is not blank; the new state is `SessionModel.BeginChat` of the old one |
| App.Session.FinishChatSubmit | App.tsx:153-165 | the new state is `SessionModel.FinishChat` of the old one |
| App.Session.HandleChatSubmit | App.tsx:145-166 | the new state is `SessionModel.HandleChatSubmit` of the old one |

## Left out

- Rendering: the JSX of App.tsx (lines 168-409), the chat and side-panel markup, and the imported
  visual components. It is presentation only.
- The dark-mode effect and the log auto-scroll (App.tsx:45-57). These are DOM side effects. The
  `darkMode` and `isChatOpen` cells exist only for rendering, so they are not in the state.
- The entropy ticker (App.tsx:59-64) and its `entropy` cell: a random floating-point walk on a
  timer.
- The `GoogleGenAI` client and its API key (App.tsx:154-159), and services/geminiService and
  services/scannerService. Their results are parameters of the model. The services' source is not
  part of this model.
- Time stamps from `toLocaleTimeString` and `toLocaleString`. They are opaque strings passed in.
- Rejected `await`s. `initiateAnalysis` (App.tsx:103, 107, 111), `examineFinding`
  (App.tsx:132) and `applySelfHeal` (App.tsx:140) have no `catch`. When an awaited call rejects,
  the handler stops after its last finished phase. For example, `isHealing` stays true after
  App.tsx:138, or the status stays SCANNING. The composite functions `InitiateAnalysis`,
  `ExamineFinding` and `ApplySelfHeal` assume that every `await` resolves. The `Action`/`Run`
  model does cover a rejection: it is a run with the Begin action and without the Finish action
  (see `InitiateAnalysisIsRun`, `ExamineFindingIsRun` and `ApplySelfHealIsRun` for the phases).
- React's batching and scheduling, and concurrency. A handler's phases run in program order. The
  `Action`/`Run` model covers any interleaving of phases, but not states in between two setters
  of one phase.
- `COLORS`, `MOCK_TIMELINE` and `MOCK_VULNS` (constants.tsx:4-13, 26-46). No handler uses them.
- RepoMetadata has only `owner` and `name`. The other members of the scanner's type are not read
  by the handlers.
- The log levels. 'ERROR', 'WARN' and 'SYSTEM' are the levels the log rendering tells apart
  (App.tsx:229). The handlers write only 'SYSTEM' (App.tsx:81, 101, 110, 114, 139). `InfoLevel`
  is an assumed name for the rendering's last branch, which shows every other level alike. The
  scanner's own ScanLog declaration is not part of this model. No handler reads a level, so
  closing the set at four values changes no behaviour the model covers.
- JavaScript numbers are Dafny `real` (risk score, confidence, stage progress) or `int` (line
  number). Floating-point rounding is not modelled.
- Text.Decimal: `toFixed(0)` switches to exponent notation from 1e21. That cannot happen here,
  because `15·results.length` stays far below that bound.
- Text.Trim: the model only needs "empty after trimming", so it is not proved to remove exactly
  the leading and trailing whitespace and nothing more.
- An empty or missing `response.text` both become `Ok("")`, since `||` treats them alike.
- The `e.preventDefault()` calls on form events: they only affect the browser.
