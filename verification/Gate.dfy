/**
  The runtime risk and quality gate, and the signals it is given.
*/
module Gate {
  import opened Text
  import opened Wrappers

  datatype RiskLevel = Low | Medium | High | Critical

  datatype Decision = AutoComplete | CompleteWithWarning | RequireHumanReview | BlockAndEscalate

  datatype ReasonCode =
    | MediumRisk | HighRisk | CriticalRisk | InsufficientEvidence | InvalidProvenance | DegradedExecution
    | SpecialistUnavailable | MissingHumanOversight | MissingRiskMitigation | UnsupportedClaim
    | ModelFailure | ToolFailure | RetrievalFailure | QualityGateFailed

  datatype Policy = Policy(
    mediumRiskDecision: Decision, highRiskDecision: Decision, criticalRiskDecision: Decision,
    reviewOnInsufficientEvidence: bool, reviewOnDegradedExecution: bool, reviewOnSpecialistUnavailable: bool,
    reviewOnToolFailure: bool, blockHighRiskInvalidProvenance: bool, blockCriticalMissingMitigation: bool,
    maxHumanRevisions: nat)

  datatype Signals = Signals(
    riskLevel: RiskLevel, evidenceRequired: bool, evidenceAvailable: bool, provenanceValid: bool,
    unsupportedClaimsDetected: bool, degradedExecution: bool, specialistUnavailable: bool, retrievalFailed: bool,
    toolFailed: bool, modelFailed: bool, humanOversightRequired: bool, humanOversightPresent: bool,
    mitigationsComplete: bool)

  datatype GateResult = GateResult(
    decision: Decision, riskLevel: RiskLevel, reasonCodes: seq<ReasonCode>, reviewRequired: bool, blocked: bool)

  // Position in the risk scale and strength of an outcome.
  function Level(risk: RiskLevel): nat {
    match risk case Low => 0 case Medium => 1 case High => 2 case Critical => 3
  }

  function Priority(decision: Decision): nat {
    match decision
    case AutoComplete => 0
    case CompleteWithWarning => 1
    case RequireHumanReview => 2
    case BlockAndEscalate => 3
  }

  function RiskDecision(risk: RiskLevel, policy: Policy): Decision {
    match risk
    case Critical => policy.criticalRiskDecision
    case High => policy.highRiskDecision
    case Medium => policy.mediumRiskDecision
    case Low => AutoComplete
  }

  predicate Blocks(signals: Signals, policy: Policy) {
    || signals.modelFailed
    || (!signals.provenanceValid && policy.blockHighRiskInvalidProvenance && Level(signals.riskLevel) >= 2)
    || (!signals.mitigationsComplete && policy.blockCriticalMissingMitigation && signals.riskLevel == Critical)
  }

  predicate NeedsReview(signals: Signals, policy: Policy) {
    || (signals.evidenceRequired && !signals.evidenceAvailable && policy.reviewOnInsufficientEvidence)
    || (signals.degradedExecution && policy.reviewOnDegradedExecution)
    || (signals.specialistUnavailable && policy.reviewOnSpecialistUnavailable)
    || (signals.toolFailed && policy.reviewOnToolFailure)
    || (signals.retrievalFailed && policy.reviewOnInsufficientEvidence)
    || (signals.humanOversightRequired && !signals.humanOversightPresent)
    || signals.unsupportedClaimsDetected
  }

  function Stronger(a: Decision, b: Decision): Decision {
    if Priority(a) >= Priority(b) then a else b
  }

  // The strongest of the risk decision, the block conditions and the review conditions.
  function Outcome(signals: Signals, policy: Policy): Decision {
    Stronger(RiskDecision(signals.riskLevel, policy),
             Stronger(if Blocks(signals, policy) then BlockAndEscalate else AutoComplete,
                      if NeedsReview(signals, policy) then RequireHumanReview else AutoComplete))
  }

  /** The outcome is one of the three and none of them is stronger. */
  lemma OutcomeIsTheStrongest(signals: Signals, policy: Policy)
    ensures var outcome := Outcome(signals, policy);
      && Priority(outcome) >= Priority(RiskDecision(signals.riskLevel, policy))
      && (Blocks(signals, policy) ==> outcome == BlockAndEscalate)
      && (NeedsReview(signals, policy) ==> Priority(outcome) >= Priority(RequireHumanReview))
      && (outcome == RiskDecision(signals.riskLevel, policy) || Blocks(signals, policy)
          || (outcome == RequireHumanReview && NeedsReview(signals, policy)))
  {
  }

  // The policy's own decision for a risk level; low risk has none.
  predicate Configured(risk: RiskLevel, policy: Policy, decision: Decision) {
    || (risk == Medium && policy.mediumRiskDecision == decision)
    || (risk == High && policy.highRiskDecision == decision)
    || (risk == Critical && policy.criticalRiskDecision == decision)
  }

  /** What blocks a candidate, and nothing else does. */
  lemma BlockedExactlyWhen(signals: Signals, policy: Policy)
    ensures Result(signals, policy).blocked <==>
      || signals.modelFailed
      || (!signals.provenanceValid && signals.riskLevel in {High, Critical} && policy.blockHighRiskInvalidProvenance)
      || (!signals.mitigationsComplete && signals.riskLevel == Critical && policy.blockCriticalMissingMitigation)
      || Configured(signals.riskLevel, policy, BlockAndEscalate)
  {
    hide Reported;
  }

  /** What sends a candidate that is not blocked to a reviewer, and nothing else does. */
  lemma ReviewRequiredExactlyWhen(signals: Signals, policy: Policy)
    ensures Result(signals, policy).reviewRequired <==>
      && !Result(signals, policy).blocked
      && (|| Configured(signals.riskLevel, policy, RequireHumanReview)
          || (signals.evidenceRequired && !signals.evidenceAvailable && policy.reviewOnInsufficientEvidence)
          || (signals.degradedExecution && policy.reviewOnDegradedExecution)
          || (signals.specialistUnavailable && policy.reviewOnSpecialistUnavailable)
          || (signals.toolFailed && policy.reviewOnToolFailure)
          || (signals.retrievalFailed && policy.reviewOnInsufficientEvidence)
          || (signals.humanOversightRequired && !signals.humanOversightPresent)
          || signals.unsupportedClaimsDetected)
  {
    hide Reported;
  }

  /** What is left completes, with a warning exactly when the level is configured for one. */
  lemma CompletedExactlyWhen(signals: Signals, policy: Policy)
    ensures var result := Result(signals, policy);
      && (result.decision == CompleteWithWarning
          <==> !result.blocked && !result.reviewRequired && Configured(signals.riskLevel, policy, CompleteWithWarning))
      && (result.decision == AutoComplete ==> !result.blocked && !result.reviewRequired)
      && result.riskLevel == signals.riskLevel
  {
    hide Reported;
  }

  // Which signal each reason code reports.
  predicate Explains(code: ReasonCode, signals: Signals) {
    match code
    case MediumRisk => signals.riskLevel == Medium
    case HighRisk => signals.riskLevel == High
    case CriticalRisk => signals.riskLevel == Critical
    case InsufficientEvidence => signals.evidenceRequired && !signals.evidenceAvailable
    case InvalidProvenance => !signals.provenanceValid
    case DegradedExecution => signals.degradedExecution
    case SpecialistUnavailable => signals.specialistUnavailable
    case MissingHumanOversight => signals.humanOversightRequired && !signals.humanOversightPresent
    case MissingRiskMitigation => !signals.mitigationsComplete
    case UnsupportedClaim => signals.unsupportedClaimsDetected
    case ModelFailure => signals.modelFailed
    case ToolFailure => signals.toolFailed
    case RetrievalFailure => signals.retrievalFailed
    case QualityGateFailed => false
  }

  // The codes in the order in which the gate reports them.
  const REPORT_ORDER: seq<ReasonCode> := [
    MediumRisk, HighRisk, CriticalRisk, InsufficientEvidence, InvalidProvenance, DegradedExecution,
    SpecialistUnavailable, MissingHumanOversight, MissingRiskMitigation, UnsupportedClaim,
    ModelFailure, ToolFailure, RetrievalFailure]

  function Reported(codes: seq<ReasonCode>, signals: Signals): (reported: seq<ReasonCode>)
    ensures forall code :: code in reported <==> code in codes && Explains(code, signals)
  {
    if codes == [] then []
    else if Explains(codes[0], signals) then [codes[0]] + Reported(codes[1..], signals)
    else Reported(codes[1..], signals)
  }

  function Result(signals: Signals, policy: Policy): GateResult {
    var decision := Outcome(signals, policy);
    GateResult(decision, signals.riskLevel, Reported(REPORT_ORDER, signals),
               decision == RequireHumanReview, decision == BlockAndEscalate)
  }

  // `_reason_codes`, one appended code after the other.
  method ReasonCodes(signals: Signals) returns (reasons: seq<ReasonCode>)
    ensures reasons == Reported(REPORT_ORDER, signals)
  {
    hide Reported, ReportsFirst, NeedsReview;
    reasons := [];
    if signals.riskLevel == Medium {
      reasons := [MediumRisk];
    } else if signals.riskLevel == High {
      reasons := [HighRisk];
    } else if signals.riskLevel == Critical {
      reasons := [CriticalRisk];
    }
    RiskCodes(signals);
    reasons := EvidenceReasons(reasons, signals);
    reasons := ExecutionReasons(reasons, signals);
    AllReported(reasons, signals);
  }

  // The codes on evidence and on the execution's health.
  method EvidenceReasons(before: seq<ReasonCode>, signals: Signals) returns (reasons: seq<ReasonCode>)
    requires ReportsFirst(before, signals, 3)
    ensures ReportsFirst(reasons, signals, 7)
  {
    hide Reported, ReportsFirst;
    reasons := before;
    reasons := AppendIf(reasons, signals, 3, InsufficientEvidence, signals.evidenceRequired && !signals.evidenceAvailable);
    reasons := AppendIf(reasons, signals, 4, InvalidProvenance, !signals.provenanceValid);
    reasons := AppendIf(reasons, signals, 5, DegradedExecution, signals.degradedExecution);
    reasons := AppendIf(reasons, signals, 6, SpecialistUnavailable, signals.specialistUnavailable);
  }

  // The codes on oversight, claims and failures.
  method ExecutionReasons(before: seq<ReasonCode>, signals: Signals) returns (reasons: seq<ReasonCode>)
    requires ReportsFirst(before, signals, 7)
    ensures ReportsFirst(reasons, signals, 13)
  {
    hide Reported, ReportsFirst;
    reasons := before;
    reasons := AppendIf(reasons, signals, 7, MissingHumanOversight,
                        signals.humanOversightRequired && !signals.humanOversightPresent);
    reasons := AppendIf(reasons, signals, 8, MissingRiskMitigation, !signals.mitigationsComplete);
    reasons := AppendIf(reasons, signals, 9, UnsupportedClaim, signals.unsupportedClaimsDetected);
    reasons := AppendIf(reasons, signals, 10, ModelFailure, signals.modelFailed);
    reasons := AppendIf(reasons, signals, 11, ToolFailure, signals.toolFailed);
    reasons := AppendIf(reasons, signals, 12, RetrievalFailure, signals.retrievalFailed);
  }

  lemma AllReported(reasons: seq<ReasonCode>, signals: Signals)
    requires ReportsFirst(reasons, signals, 13)
    ensures reasons == Reported(REPORT_ORDER, signals)
  {
    hide Reported;
    assert REPORT_ORDER[..|REPORT_ORDER|] == REPORT_ORDER;
  }

  // `reasons` lists what the first k codes report.
  ghost predicate ReportsFirst(reasons: seq<ReasonCode>, signals: Signals, k: nat) {
    k <= |REPORT_ORDER| && reasons == Reported(REPORT_ORDER[..k], signals)
  }

  method AppendIf(reasons: seq<ReasonCode>, signals: Signals, ghost k: nat, code: ReasonCode, condition: bool)
    returns (more: seq<ReasonCode>)
    requires ReportsFirst(reasons, signals, k) && k < |REPORT_ORDER| && REPORT_ORDER[k] == code
    requires condition == Explains(code, signals)
    ensures ReportsFirst(more, signals, k + 1)
  {
    hide Reported, Explains;
    ReportedStep(signals, k + 1);
    more := if condition then reasons + [code] else reasons;
  }

  lemma RiskCodes(signals: Signals)
    ensures signals.riskLevel == Low ==> ReportsFirst([], signals, 3)
    ensures signals.riskLevel == Medium ==> ReportsFirst([MediumRisk], signals, 3)
    ensures signals.riskLevel == High ==> ReportsFirst([HighRisk], signals, 3)
    ensures signals.riskLevel == Critical ==> ReportsFirst([CriticalRisk], signals, 3)
  {
    hide Reported;
    ReportedStep(signals, 0);
    ReportedStep(signals, 1);
    ReportedStep(signals, 2);
    ReportedStep(signals, 3);
  }

  lemma ReportedStep(signals: Signals, k: nat)
    requires k <= |REPORT_ORDER|
    ensures k == 0 ==> Reported(REPORT_ORDER[..k], signals) == []
    ensures k > 0 ==> Reported(REPORT_ORDER[..k], signals) == Reported(REPORT_ORDER[..k - 1], signals)
                       + if Explains(REPORT_ORDER[k - 1], signals) then [REPORT_ORDER[k - 1]] else []
  {
    if k > 0 {
      assert REPORT_ORDER[..k] == REPORT_ORDER[..k - 1] + [REPORT_ORDER[k - 1]];
      ReportedAppend(REPORT_ORDER[..k - 1], REPORT_ORDER[k - 1], signals);
    } else {
      assert REPORT_ORDER[..0] == [];
    }
  }

  lemma {:induction false} ReportedAppend(codes: seq<ReasonCode>, code: ReasonCode, signals: Signals)
    ensures Reported(codes + [code], signals) == Reported(codes, signals) + if Explains(code, signals) then [code] else []
  {
    if codes == [] {
      assert [code][1..] == [];
    } else {
      assert (codes + [code])[1..] == codes[1..] + [code];
      ReportedAppend(codes[1..], code, signals);
    }
  }

  /** `evaluate`: the decision is raised step by step. */
  method Evaluate(signals: Signals, policy: Policy) returns (result: GateResult)
    ensures result == Result(signals, policy)
  {
    hide Reported, Explains, NeedsReview;
    var reasons := ReasonCodes(signals);
    var decision := RiskDecision(signals.riskLevel, policy);
    if signals.modelFailed {
      decision := BlockAndEscalate;
    }
    if !signals.provenanceValid && policy.blockHighRiskInvalidProvenance && signals.riskLevel in {High, Critical} {
      decision := BlockAndEscalate;
    }
    if !signals.mitigationsComplete && policy.blockCriticalMissingMitigation && signals.riskLevel == Critical {
      decision := BlockAndEscalate;
    }
    if NeedsReview(signals, policy) && Priority(decision) < Priority(RequireHumanReview) {
      decision := RequireHumanReview;
    }
    result := GateResult(decision, signals.riskLevel, reasons, decision == RequireHumanReview, decision == BlockAndEscalate);
  }

  // ---- Monotonicity ----

  // `t` is at least as adverse as `s` in every signal.
  ghost predicate Worse(s: Signals, t: Signals) {
    && Level(s.riskLevel) <= Level(t.riskLevel)
    && (s.evidenceRequired ==> t.evidenceRequired) && (t.evidenceAvailable ==> s.evidenceAvailable)
    && (t.provenanceValid ==> s.provenanceValid)
    && (s.unsupportedClaimsDetected ==> t.unsupportedClaimsDetected)
    && (s.degradedExecution ==> t.degradedExecution)
    && (s.specialistUnavailable ==> t.specialistUnavailable)
    && (s.retrievalFailed ==> t.retrievalFailed)
    && (s.toolFailed ==> t.toolFailed) && (s.modelFailed ==> t.modelFailed)
    && (s.humanOversightRequired ==> t.humanOversightRequired) && (t.humanOversightPresent ==> s.humanOversightPresent)
    && (t.mitigationsComplete ==> s.mitigationsComplete)
  }

  // The policy does not fall as risk rises.
  predicate RisingPolicy(policy: Policy) {
    Priority(policy.mediumRiskDecision) <= Priority(policy.highRiskDecision) <= Priority(policy.criticalRiskDecision)
  }

  /** At a fixed risk level no policy lets an adverse signal lower the outcome. */
  lemma AdverseSignalNeverLowers(s: Signals, t: Signals, policy: Policy)
    requires Worse(s, t) && s.riskLevel == t.riskLevel
    ensures Priority(Outcome(s, policy)) <= Priority(Outcome(t, policy))
  {
  }

  // Signals without any adverse flag.
  function Calm(risk: RiskLevel): Signals {
    Signals(risk, false, true, true, false, false, false, false, false, false, false, true, true)
  }

  /** The outcome never falls as the signals get worse exactly when the policy rises with risk. */
  lemma MonotoneExactlyForRisingPolicies(policy: Policy)
    ensures (forall s, t | Worse(s, t) :: Priority(Outcome(s, policy)) <= Priority(Outcome(t, policy)))
            <==> RisingPolicy(policy)
  {
    if !RisingPolicy(policy) {
      assert Worse(Calm(Medium), Calm(High)) && Worse(Calm(High), Calm(Critical));
      assert Outcome(Calm(Medium), policy) == policy.mediumRiskDecision;
      assert Outcome(Calm(High), policy) == policy.highRiskDecision;
      assert Outcome(Calm(Critical), policy) == policy.criticalRiskDecision;
    }
  }

  lemma RisingPolicyNeverLowers(s: Signals, t: Signals, policy: Policy)
    requires Worse(s, t) && RisingPolicy(policy)
    ensures Priority(Outcome(s, policy)) <= Priority(Outcome(t, policy))
  {
  }

  /** Every outcome other than automatic completion is explained by a reported reason code. */
  lemma OutcomeIsExplained(signals: Signals, policy: Policy)
    requires Outcome(signals, policy) != AutoComplete
    ensures Result(signals, policy).reasonCodes != []
    ensures forall code :: code in Result(signals, policy).reasonCodes <==> Explains(code, signals)
  {
    forall code | Explains(code, signals) ensures code in REPORT_ORDER {
      match code {
        case MediumRisk => assert REPORT_ORDER[0] == code;
        case HighRisk => assert REPORT_ORDER[1] == code;
        case CriticalRisk => assert REPORT_ORDER[2] == code;
        case InsufficientEvidence => assert REPORT_ORDER[3] == code;
        case InvalidProvenance => assert REPORT_ORDER[4] == code;
        case DegradedExecution => assert REPORT_ORDER[5] == code;
        case SpecialistUnavailable => assert REPORT_ORDER[6] == code;
        case MissingHumanOversight => assert REPORT_ORDER[7] == code;
        case MissingRiskMitigation => assert REPORT_ORDER[8] == code;
        case UnsupportedClaim => assert REPORT_ORDER[9] == code;
        case ModelFailure => assert REPORT_ORDER[10] == code;
        case ToolFailure => assert REPORT_ORDER[11] == code;
        case RetrievalFailure => assert REPORT_ORDER[12] == code;
        case QualityGateFailed =>
      }
    }
    var code := CodeFor(signals);
    assert Explains(code, signals) by { SomeCodeExplains(signals, policy); }
    assert code in Reported(REPORT_ORDER, signals);
  }

  // One code that explains a non-automatic outcome.
  function CodeFor(signals: Signals): ReasonCode {
    if signals.riskLevel == Medium then MediumRisk
    else if signals.riskLevel == High then HighRisk
    else if signals.riskLevel == Critical then CriticalRisk
    else if signals.modelFailed then ModelFailure
    else if signals.evidenceRequired && !signals.evidenceAvailable then InsufficientEvidence
    else if signals.degradedExecution then DegradedExecution
    else if signals.specialistUnavailable then SpecialistUnavailable
    else if signals.toolFailed then ToolFailure
    else if signals.retrievalFailed then RetrievalFailure
    else if signals.humanOversightRequired && !signals.humanOversightPresent then MissingHumanOversight
    else UnsupportedClaim
  }

  lemma SomeCodeExplains(signals: Signals, policy: Policy)
    requires Outcome(signals, policy) != AutoComplete
    ensures Explains(CodeFor(signals), signals)
  {
  }

  // ---- Deriving the signals ----

  datatype AssessmentRisk = AssessmentRisk(severity: RiskLevel, mitigation: string)

  datatype AssessmentResult = AssessmentResult(risks: seq<AssessmentRisk>, reviewRecommended: bool, summary: string)

  datatype GraphRetrieval = GraphRetrieval(degraded: bool, graphErrorCode: string, vectorErrorCode: string)

  datatype Termination = WorkCompleted | MaxStepsReached | MaxToolCallsReached | AgentStopped | WorkFailed

  datatype SpecialistStatus = SpecialistCompleted | SpecialistFailed | SpecialistSkipped | SpecialistPending

  datatype Execution =
    | Deterministic(graph: Option<GraphRetrieval>)
    | SingleAgent(graph: Option<GraphRetrieval>, termination: Termination, toolFailures: nat)
    | MultiAgent(graph: Option<GraphRetrieval>, degradedMode: bool, statuses: seq<SpecialistStatus>, toolFailures: nat,
                 reason: string)

  function WorstLevel(risks: seq<AssessmentRisk>): RiskLevel {
    if risks == [] then Low
    else
      var rest := WorstLevel(risks[1..]);
      if Level(risks[0].severity) >= Level(rest) then risks[0].severity else rest
  }

  predicate Mitigated(risks: seq<AssessmentRisk>) {
    forall i | 0 <= i < |risks| :: Strip(risks[i].mitigation) != ""
  }

  predicate Degraded(execution: Execution) {
    || (execution.graph.Some? && execution.graph.value.degraded)
    || (execution.SingleAgent? && execution.termination !in {WorkCompleted, AgentStopped})
    || (execution.MultiAgent? && execution.degradedMode)
  }

  function DeriveSignals(result: AssessmentResult, evidenceCount: nat, execution: Execution, provenanceValid: bool): Signals {
    var risk := WorstLevel(result.risks);
    Signals(
      risk, Level(risk) >= 2, evidenceCount > 0, provenanceValid, false, Degraded(execution),
      execution.MultiAgent? && (SpecialistFailed in execution.statuses || SpecialistSkipped in execution.statuses),
      execution.graph.Some? && (execution.graph.value.graphErrorCode != "" || execution.graph.value.vectorErrorCode != ""),
      !execution.Deterministic? && execution.toolFailures > 0, false, Level(risk) >= 2, result.reviewRecommended,
      Mitigated(result.risks))
  }

  /** `derive_signals`, with its local flags and the scan over the risks. */
  method ComputeSignals(result: AssessmentResult, evidenceCount: nat, execution: Execution, provenanceValid: bool)
    returns (signals: Signals)
    ensures signals == DeriveSignals(result, evidenceCount, execution, provenanceValid)
  {
    var riskLevel := Low;
    var mitigationsComplete := true;
    for i := |result.risks| downto 0
      invariant riskLevel == WorstLevel(result.risks[i..])
      invariant mitigationsComplete == Mitigated(result.risks[i..])
    {
      var risk := result.risks[i];
      assert result.risks[i..][0] == risk && result.risks[i..][1..] == result.risks[i + 1..];
      MitigatedCons(risk, result.risks[i + 1..]);
      assert result.risks[i..] == [risk] + result.risks[i + 1..];
      if Level(risk.severity) >= Level(riskLevel) {
        riskLevel := risk.severity;
      }
      mitigationsComplete := mitigationsComplete && Strip(risk.mitigation) != "";
    }
    assert result.risks[0..] == result.risks;
    var degraded, specialistUnavailable, retrievalFailed, toolFailed := false, false, false, false;
    if execution.graph.Some? {
      degraded := execution.graph.value.degraded;
      retrievalFailed := execution.graph.value.graphErrorCode != "" || execution.graph.value.vectorErrorCode != "";
    }
    if execution.SingleAgent? {
      degraded := degraded || execution.termination !in {WorkCompleted, AgentStopped};
      toolFailed := execution.toolFailures > 0;
    } else if execution.MultiAgent? {
      degraded := degraded || execution.degradedMode;
      specialistUnavailable := SpecialistFailed in execution.statuses || SpecialistSkipped in execution.statuses;
      toolFailed := execution.toolFailures > 0;
    }
    var evidenceRequired := riskLevel in {High, Critical};
    signals := Signals(
      riskLevel, evidenceRequired, evidenceCount > 0, provenanceValid, false, degraded, specialistUnavailable,
      retrievalFailed, toolFailed, false, evidenceRequired, result.reviewRecommended, mitigationsComplete);
  }

  lemma MitigatedCons(risk: AssessmentRisk, rest: seq<AssessmentRisk>)
    ensures Mitigated([risk] + rest) <==> Strip(risk.mitigation) != "" && Mitigated(rest)
  {
    hide Strip;
    var risks := [risk] + rest;
    if Mitigated(risks) {
      forall i | 0 <= i < |rest| ensures Strip(rest[i].mitigation) != "" { assert rest[i] == risks[i + 1]; }
      assert risks[0] == risk;
    }
  }

  lemma {:induction false} WorstLevelBounds(risks: seq<AssessmentRisk>)
    ensures forall i | 0 <= i < |risks| :: Level(risks[i].severity) <= Level(WorstLevel(risks))
    ensures risks == [] ==> WorstLevel(risks) == Low
    ensures WorstLevel(risks) != Low ==> exists i | 0 <= i < |risks| :: risks[i].severity == WorstLevel(risks)
  {
    if risks != [] {
      WorstLevelBounds(risks[1..]);
      assert forall i | 0 < i < |risks| :: risks[i] == risks[1..][i - 1];
      if WorstLevel(risks) != Low && WorstLevel(risks) != risks[0].severity {
        var i :| 0 <= i < |risks[1..]| && risks[1..][i].severity == WorstLevel(risks[1..]);
        assert risks[i + 1] == risks[1..][i];
      }
    }
  }

  // Some character of the text is visible.
  ghost predicate Visible(text: string) {
    exists i | 0 <= i < |text| :: !IsSpace(text[i])
  }

  lemma VisibleIsNotBlank(text: string)
    ensures Visible(text) <==> Strip(text) != ""
  {
    hide Strip;
    StripTrims(text);
    InkOfSpace(text);
    if Strip(text) == "" {
      InkNothing();
    }
  }

  /** Each signal in terms of the result, the evidence and the execution. */
  lemma SignalsSay(result: AssessmentResult, evidenceCount: nat, execution: Execution, provenanceValid: bool)
    ensures var s, risks := DeriveSignals(result, evidenceCount, execution, provenanceValid), result.risks;
      && (forall i | 0 <= i < |risks| :: Level(risks[i].severity) <= Level(s.riskLevel))
      && (s.riskLevel == Low || exists i | 0 <= i < |risks| :: risks[i].severity == s.riskLevel)
      && (s.evidenceRequired <==> exists i | 0 <= i < |risks| :: risks[i].severity in {High, Critical})
      && (s.mitigationsComplete <==> forall i | 0 <= i < |risks| :: Visible(risks[i].mitigation))
      && s.humanOversightRequired == s.evidenceRequired && s.humanOversightPresent == result.reviewRecommended
      && s.evidenceAvailable == (evidenceCount > 0) && s.provenanceValid == provenanceValid
      && !s.unsupportedClaimsDetected && !s.modelFailed
  {
    hide Strip, WorstLevel, Degraded, Visible;
    WorstLevelBounds(result.risks);
    var risks := result.risks;
    forall i | 0 <= i < |risks| ensures Visible(risks[i].mitigation) <==> Strip(risks[i].mitigation) != "" {
      VisibleIsNotBlank(risks[i].mitigation);
    }
  }

  /** The signals about the execution, kind by kind. */
  lemma ExecutionSignalsSay(result: AssessmentResult, evidenceCount: nat, execution: Execution, provenanceValid: bool)
    ensures var s, graph := DeriveSignals(result, evidenceCount, execution, provenanceValid), execution.graph;
      && (s.retrievalFailed <==> graph.Some? && (graph.value.graphErrorCode != "" || graph.value.vectorErrorCode != ""))
      && (match execution
          case Deterministic(_) =>
            !s.specialistUnavailable && !s.toolFailed && (s.degradedExecution <==> graph.Some? && graph.value.degraded)
          case SingleAgent(_, termination, toolFailures) =>
            && !s.specialistUnavailable && (s.toolFailed <==> toolFailures > 0)
            && (s.degradedExecution <==> (graph.Some? && graph.value.degraded)
                                         || termination in {MaxStepsReached, MaxToolCallsReached, WorkFailed})
          case MultiAgent(_, degradedMode, statuses, toolFailures, _) =>
            && (s.toolFailed <==> toolFailures > 0) && (s.degradedExecution <==> (graph.Some? && graph.value.degraded) || degradedMode)
            && (s.specialistUnavailable <==> exists i | 0 <= i < |statuses| :: statuses[i] in {SpecialistFailed, SpecialistSkipped}))
  {
    hide WorstLevel, Mitigated;
    if execution.SingleAgent? {
      match execution.termination {
        case WorkCompleted | AgentStopped =>
        case MaxStepsReached | MaxToolCallsReached | WorkFailed => assert Degraded(execution);
      }
    }
  }

  // The risk is still among the risks, at least as severe and with the same mitigation.
  ghost predicate StillThere(risk: AssessmentRisk, risks: seq<AssessmentRisk>) {
    exists j | 0 <= j < |risks| :: Level(risk.severity) <= Level(risks[j].severity) && risk.mitigation == risks[j].mitigation
  }

  ghost predicate NoLessRisky(before: seq<AssessmentRisk>, after: seq<AssessmentRisk>) {
    forall i | 0 <= i < |before| :: StillThere(before[i], after)
  }

  lemma AddingARisk(risks: seq<AssessmentRisk>, at: nat, risk: AssessmentRisk)
    requires at <= |risks|
    ensures NoLessRisky(risks, risks[..at] + [risk] + risks[at..])
  {
    var after := risks[..at] + [risk] + risks[at..];
    forall i | 0 <= i < |risks| ensures StillThere(risks[i], after) {
      assert after[if i < at then i else i + 1] == risks[i];
    }
  }

  lemma RaisingASeverity(risks: seq<AssessmentRisk>, at: nat, severity: RiskLevel)
    requires at < |risks| && Level(risks[at].severity) <= Level(severity)
    ensures NoLessRisky(risks, risks[at := risks[at].(severity := severity)])
  {
    var after := risks[at := risks[at].(severity := severity)];
    forall i | 0 <= i < |risks| ensures StillThere(risks[i], after) {
      assert Level(risks[i].severity) <= Level(after[i].severity) && risks[i].mitigation == after[i].mitigation;
    }
  }

  lemma RiskierIsAtLeastAsSevere(before: seq<AssessmentRisk>, after: seq<AssessmentRisk>)
    requires NoLessRisky(before, after)
    ensures Level(WorstLevel(before)) <= Level(WorstLevel(after))
    ensures Mitigated(after) ==> Mitigated(before)
  {
    hide Strip, WorstLevel;
    WorstLevelBounds(before);
    WorstLevelBounds(after);
    if WorstLevel(before) != Low {
      var i :| 0 <= i < |before| && before[i].severity == WorstLevel(before);
      assert StillThere(before[i], after);
    }
    if Mitigated(after) {
      forall i | 0 <= i < |before| ensures Strip(before[i].mitigation) != "" {
        assert StillThere(before[i], after);
      }
    }
  }

  /** Riskier results give worse signals and, under a rising policy, never a weaker outcome. */
  lemma RiskierNeverLowers(before: AssessmentResult, after: AssessmentResult, evidenceCount: nat, execution: Execution,
                           provenanceValid: bool, policy: Policy)
    requires NoLessRisky(before.risks, after.risks) && before.reviewRecommended == after.reviewRecommended
    requires RisingPolicy(policy)
    ensures Worse(DeriveSignals(before, evidenceCount, execution, provenanceValid),
                  DeriveSignals(after, evidenceCount, execution, provenanceValid))
    ensures Priority(Outcome(DeriveSignals(before, evidenceCount, execution, provenanceValid), policy))
         <= Priority(Outcome(DeriveSignals(after, evidenceCount, execution, provenanceValid), policy))
  {
    hide Strip, Outcome, WorstLevel, Mitigated, NoLessRisky;
    var s := DeriveSignals(before, evidenceCount, execution, provenanceValid);
    var t := DeriveSignals(after, evidenceCount, execution, provenanceValid);
    RiskierIsAtLeastAsSevere(before.risks, after.risks);
    assert Worse(s, t);
    RisingPolicyNeverLowers(s, t, policy);
  }
}
