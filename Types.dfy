/** The enumerations and records of types.ts as Dafny datatypes. */
module Types {

  /** A value or its absence; stands for TypeScript's `T | null` and optional `?` members. */
  datatype Option<+T> = None | Some(value: T)

  /** RiskLevel: the severity of a finding. */
  datatype RiskLevel = Low | Medium | High | Critical

  /** PipelineStatus: the session-wide status of an audit. */
  datatype PipelineStatus = Idle | Scanning | Analyzing | Verdict | Healing | Passed | Failed

  /** The `type` member of a Vulnerability: the analysis layer that reported it. */
  datatype Category = Secret | Sast | Dast | Iac | Dep | SupplyChain | Quantum | Chaos

  /** Vulnerability: one finding. `file`, `line`, `remediation` and `exploitPath` are optional.
      JavaScript numbers are modelled as `int` where the source uses them as line numbers and as
      `real` where they are fractions. */
  datatype Vulnerability = Vulnerability(
    id: string,
    category: Category,
    title: string,
    description: string,
    severity: RiskLevel,
    file: Option<string>,
    line: Option<int>,
    riskScore: real,
    remediation: Option<string>,
    exploitPath: Option<seq<string>>)

  /** The `result` member of a SecurityVerdict. */
  datatype VerdictResult = Pass | Warn | Fail | AutoFix

  /** SecurityVerdict: the synthesized outcome of one audit. */
  datatype SecurityVerdict = SecurityVerdict(result: VerdictResult, action: string, confidence: real, explanation: string)

  /** The `status` member of a PipelineStage. */
  datatype StageStatus = Pending | Running | Completed | Error

  /** PipelineStage: one layer of the pipeline. `caption` is the source's `label`, a Dafny keyword. */
  datatype PipelineStage = PipelineStage(id: string, caption: string, status: StageStatus, progress: real)

  /** True when no element of `s` occurs twice. */
  predicate Distinct<T(==)>(s: seq<T>) {
    forall i, j :: 0 <= i < j < |s| ==> s[i] != s[j]
  }

  /** Every PipelineStatus, in declaration order: exactly seven distinct values. */
  function AllPipelineStatuses(): (r: seq<PipelineStatus>)
    ensures |r| == 7 && Distinct(r)
    ensures forall p: PipelineStatus :: p in r
  {
    var r := [Idle, Scanning, Analyzing, Verdict, Healing, Passed, Failed];
    PipelineStatusesListed(r);
    r
  }

  lemma PipelineStatusesListed(r: seq<PipelineStatus>)
    requires r == [Idle, Scanning, Analyzing, Verdict, Healing, Passed, Failed]
    ensures forall p: PipelineStatus :: p in r
  {
    forall p: PipelineStatus ensures p in r {
      match p
      case Idle =>
      case Scanning =>
      case Analyzing =>
      case Verdict =>
      case Healing =>
      case Passed =>
      case Failed =>
    }
  }

  /** Every RiskLevel: exactly four distinct values. */
  function AllRiskLevels(): (r: seq<RiskLevel>)
    ensures |r| == 4 && Distinct(r)
    ensures forall l: RiskLevel :: l in r
  {
    var r := [Low, Medium, High, Critical];
    RiskLevelsListed(r);
    r
  }

  lemma RiskLevelsListed(r: seq<RiskLevel>)
    requires r == [Low, Medium, High, Critical]
    ensures forall l: RiskLevel :: l in r
  {
    forall l: RiskLevel ensures l in r {
      match l
      case Low =>
      case Medium =>
      case High =>
      case Critical =>
    }
  }

  /** Every Category: exactly eight distinct values. */
  function AllCategories(): (r: seq<Category>)
    ensures |r| == 8 && Distinct(r)
    ensures forall c: Category :: c in r
  {
    var r := [Secret, Sast, Dast, Iac, Dep, SupplyChain, Quantum, Chaos];
    CategoriesListed(r);
    r
  }

  lemma CategoriesListed(r: seq<Category>)
    requires r == [Secret, Sast, Dast, Iac, Dep, SupplyChain, Quantum, Chaos]
    ensures forall c: Category :: c in r
  {
    forall c: Category ensures c in r {
      match c
      case Secret =>
      case Sast =>
      case Dast =>
      case Iac =>
      case Dep =>
      case SupplyChain =>
      case Quantum =>
      case Chaos =>
    }
  }

  /** Every VerdictResult: exactly four distinct values. */
  function AllVerdictResults(): (r: seq<VerdictResult>)
    ensures |r| == 4 && Distinct(r)
    ensures forall v: VerdictResult :: v in r
  {
    var r := [Pass, Warn, Fail, AutoFix];
    VerdictResultsListed(r);
    r
  }

  lemma VerdictResultsListed(r: seq<VerdictResult>)
    requires r == [Pass, Warn, Fail, AutoFix]
    ensures forall v: VerdictResult :: v in r
  {
    forall v: VerdictResult ensures v in r {
      match v
      case Pass =>
      case Warn =>
      case Fail =>
      case AutoFix =>
    }
  }

  /** Every StageStatus: exactly four distinct values. */
  function AllStageStatuses(): (r: seq<StageStatus>)
    ensures |r| == 4 && Distinct(r)
    ensures forall s: StageStatus :: s in r
  {
    var r := [Pending, Running, Completed, Error];
    StageStatusesListed(r);
    r
  }

  lemma StageStatusesListed(r: seq<StageStatus>)
    requires r == [Pending, Running, Completed, Error]
    ensures forall s: StageStatus :: s in r
  {
    forall s: StageStatus ensures s in r {
      match s
      case Pending =>
      case Running =>
      case Completed =>
      case Error =>
    }
  }

  /** The string literal TypeScript uses for a verdict result (it is interpolated into a log line). */
  function VerdictName(v: VerdictResult): string {
    match v
    case Pass => "PASS"
    case Warn => "WARN"
    case Fail => "FAIL"
    case AutoFix => "AUTO_FIX"
  }

  /** Reads a verdict result back from its string literal. */
  function ParseVerdictResult(s: string): Option<VerdictResult> {
    if s == "PASS" then Some(Pass)
    else if s == "WARN" then Some(Warn)
    else if s == "FAIL" then Some(Fail)
    else if s == "AUTO_FIX" then Some(AutoFix)
    else None
  }

  /** The verdict names are an encoding: parsing a name gives back the result it names. */
  lemma VerdictNameRoundTrip(v: VerdictResult)
    ensures ParseVerdictResult(VerdictName(v)) == Some(v)
  {
    match v
    case Pass =>
    case Warn => assert "WARN"[0] != "PASS"[0];
    case Fail => assert "FAIL"[0] != "PASS"[0] && "FAIL"[0] != "WARN"[0];
    case AutoFix => assert |"AUTO_FIX"| != |"PASS"|;
  }
}
