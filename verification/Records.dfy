/**
  What each governance call writes, column by column: the assessment's row, the telemetry with its trace events, and the
  audit entry.
*/
module Records {
  import opened Collections
  import opened Gate
  import opened Governance
  import opened Wrappers

  lemma GateTextsFit()
    ensures TakeFirst(GATE_BLOCKED, 100) == "runtime_risk_gate_blocked"
    ensures TakeFirst(GATE_MESSAGE, 500) == "The assessment was blocked by the runtime risk and quality gate."
    ensures TakeFirst(REVIEW_REJECTED, 100) == "human_review_rejected"
    ensures TakeFirst(REVIEW_MESSAGE, 500) == "The assessment was rejected during human review."
  {
  }

  // The row of an assessment that failed for good.
  predicate FailedWith(a: Assessment, code: string, message: string) {
    && a.status == Failed && a.errorCode == Some(code) && a.errorMessage == Some(message)
    && a.result == None && a.execution == None && a.completedAt == None
  }

  predicate PublishedAt(a: Assessment, result: AssessmentResult, execution: Execution, now: Time) {
    && a.status == Completed && a.result == Some(result) && a.execution == Some(execution) && a.completedAt == Some(now)
    && a.errorCode == None && a.errorMessage == None && a.updatedAt == now
  }

  predicate HeldForReview(a: Assessment, execution: Execution) {
    && a.status == PendingReview && a.result == None && a.execution == Some(execution) && a.completedAt == None
    && a.errorCode == None && a.errorMessage == None
  }

  /** What the gate's decision makes of the assessment's row. */
  lemma GateSettlesTheRow(c: Case, clock: Clock, policy: Policy, submission: Submission, adjust: Signals -> Signals,
                          revisionCount: nat, record: bool)
    requires c.assessment.Some?
    ensures ProcessCandidate(c, clock, policy, submission, adjust, revisionCount, record).Ok?
    ensures var after := ProcessCandidate(c, clock, policy, submission, adjust, revisionCount, record).value.assessment;
      && after.Some? && after.value.createdAt == c.assessment.value.createdAt
      && match GateOf(submission, adjust, policy).decision
         case RequireHumanReview => HeldForReview(after.value, submission.execution)
         case BlockAndEscalate =>
           FailedWith(after.value, "runtime_risk_gate_blocked", "The assessment was blocked by the runtime risk and quality gate.")
         case AutoComplete => PublishedAt(after.value, submission.result, submission.execution, clock(c.readings + 1))
         case CompleteWithWarning => PublishedAt(after.value, submission.result, submission.execution, clock(c.readings + 1))
  {
    hide GateOf, TakeFirst, BuildTelemetry, SettledEvent;
    GateTextsFit();
  }

  // A single-agent run counts as degraded unless it completed or the agent stopped; a multi-agent run says so itself.
  predicate ReportsDegraded(execution: Execution) {
    || (execution.SingleAgent? && execution.termination in {MaxStepsReached, MaxToolCallsReached, WorkFailed})
    || (execution.MultiAgent? && execution.degradedMode)
  }

  /** The telemetry of a candidate: three events, the execution's own duration and ending, and its health. */
  lemma CandidateIsTraced(c: Case, clock: Clock, policy: Policy, submission: Submission, adjust: Signals -> Signals,
                          revisionCount: nat, record: bool)
    requires c.assessment.Some?
    ensures var after := ProcessCandidate(c, clock, policy, submission, adjust, revisionCount, record).value.checkpoint;
      var decision := GateOf(submission, adjust, policy).decision;
      && after.Some? && after.value.maxRevisions == policy.maxHumanRevisions
      && after.value.reviewStatus == after.value.telemetry.reviewStatus
             == (if decision == RequireHumanReview then Awaiting else NotRequired)
      && var t := after.value.telemetry;
         && t.totalMs == t.executionMs == submission.durationMs && t.humanWaitMs == None && |t.events| == 3
         && t.events[0] == TraceEvent(clock(c.readings) - 1000 * submission.durationMs, AssessmentStarted, "assessment", "started")
         && t.events[1].timestamp == clock(c.readings)
         && t.events[1].kind == GateEvaluated && t.events[1].component == "runtime_risk_gate"
         && match decision
            case RequireHumanReview =>
              && t.health == PendingHumanReview && t.events[1].status == "require_human_review"
              && t.events[2].kind == ReviewRequested && t.events[2].component == "human_review" && t.events[2].status == "pending"
            case BlockAndEscalate =>
              && t.health == Blocked && t.events[1].status == "block_and_escalate"
              && t.events[2].kind == AssessmentFailed && t.events[2].component == "assessment" && t.events[2].status == "blocked"
            case AutoComplete =>
              && t.health == (if ReportsDegraded(submission.execution) then DegradedHealth else Full)
              && t.events[1].status == t.events[2].status == "auto_complete"
              && t.events[2].kind == AssessmentCompleted && t.events[2].component == "assessment"
            case CompleteWithWarning =>
              && t.health == (if ReportsDegraded(submission.execution) then DegradedHealth else Full)
              && t.events[1].status == t.events[2].status == "complete_with_warning"
              && t.events[2].kind == AssessmentCompleted && t.events[2].component == "assessment"
  {
    hide GateOf, Settled;
    DegradedExactly(submission.execution);
    hide RanDegraded, ReportsDegraded, TerminationName;
  }

  lemma DegradedExactly(execution: Execution)
    ensures RanDegraded(execution) <==> ReportsDegraded(execution)
  {
    if execution.SingleAgent? {
      match execution.termination {
        case WorkCompleted | AgentStopped =>
        case MaxStepsReached | MaxToolCallsReached | WorkFailed => assert ReportsDegraded(execution);
      }
    }
  }

  /** The recorded ending is that of the agent's run; a deterministic run completed. */
  lemma EndingIsRecorded(c: Case, clock: Clock, policy: Policy, submission: Submission, adjust: Signals -> Signals,
                         revisionCount: nat, record: bool)
    requires c.assessment.Some?
    ensures var after := ProcessCandidate(c, clock, policy, submission, adjust, revisionCount, record).value.checkpoint;
      && after.Some? && match submission.execution
         case Deterministic(_) => after.value.telemetry.terminationReason == "completed"
         case MultiAgent(_, _, _, _, reason) => after.value.telemetry.terminationReason == reason
         case SingleAgent(_, termination, _) =>
           && (termination == WorkCompleted ==> after.value.telemetry.terminationReason == "completed")
           && (termination == MaxStepsReached ==> after.value.telemetry.terminationReason == "max_steps_reached")
           && (termination == MaxToolCallsReached ==> after.value.telemetry.terminationReason == "max_tool_calls_reached")
           && (termination == AgentStopped ==> after.value.telemetry.terminationReason == "agent_stopped")
           && (termination == WorkFailed ==> after.value.telemetry.terminationReason == "failed")
  {
    hide GateOf, Settled, SettledEvent, RanDegraded, DecisionName;
  }

  // The two events a review call adds, and what else it changes in the telemetry.
  predicate ReviewTraced(before: Telemetry, after: Telemetry, kind: TraceKind, status: ReviewStatus, name: string) {
    var n := |before.events|;
    && |after.events| == n + 2 && before.events <= after.events
    && after.events[n].kind == ReviewResumed && after.events[n + 1].kind == kind
    && after.events[n].component == after.events[n + 1].component == "human_review"
    && after.events[n].status == after.events[n + 1].status == name
    && after.reviewStatus == status && after.executionMs == before.executionMs
    && after.humanWaitMs.Some? && after.totalMs == before.executionMs + after.humanWaitMs.value
  }

  // The audit entry that a review call adds.
  predicate ReviewLogged(before: Case, after: Case, action: ReviewAction, next: ReviewStatus) {
    && |after.log| == |before.log| + 1
    && var event := after.log[|before.log|];
       event.action == action && event.previous == Awaiting && event.next == next
  }

  lemma ApprovalIsRecorded(c: Case, clock: Clock, request: ReviewRequest)
    requires StepApprove(c, clock, request).Ok?
    ensures var after, s := StepApprove(c, clock, request).value, c.checkpoint.value;
      && after.checkpoint.Some? && after.checkpoint.value.reviewStatus == Approved && s.execution == after.assessment.value.execution
      && after.assessment.value.completedAt == Some(clock(c.readings)) && after.assessment.value.errorCode == None
      && ReviewTraced(s.telemetry, after.checkpoint.value.telemetry, ReviewApproved, Approved, "approved")
      && after.checkpoint.value.telemetry.terminationReason == s.telemetry.terminationReason
      && ReviewLogged(c, after, Approval, Approved)
  {
    hide WaitMillis;
  }

  lemma RejectionIsRecorded(c: Case, clock: Clock, request: ReviewRequest)
    requires StepReject(c, clock, request).Ok?
    ensures var after, s := StepReject(c, clock, request).value, c.checkpoint.value;
      && after.checkpoint.Some? && after.checkpoint.value.reviewStatus == Rejected
      && FailedWith(after.assessment.value, "human_review_rejected", "The assessment was rejected during human review.")
      && ReviewTraced(s.telemetry, after.checkpoint.value.telemetry, ReviewRejected, Rejected, "rejected")
      && after.checkpoint.value.telemetry.terminationReason == "human_rejection"
      && ReviewLogged(c, after, Rejection, Rejected)
  {
    hide WaitMillis, TakeFirst;
    GateTextsFit();
  }

  lemma RevisionRequestIsRecorded(c: Case, clock: Clock, request: ReviewRequest)
    requires StepRequestRevision(c, clock, request).Ok?
    ensures var after, s := StepRequestRevision(c, clock, request).value, c.checkpoint.value;
      && after.checkpoint.Some? && after.checkpoint.value.reviewStatus == RevisionWanted
      && ReviewTraced(s.telemetry, after.checkpoint.value.telemetry, RevisionRequested, RevisionWanted, "revision_requested")
      && after.checkpoint.value.telemetry.terminationReason == s.telemetry.terminationReason
      && ReviewLogged(c, after, RevisionRequest, RevisionWanted)
  {
    hide WaitMillis;
  }

  /** After a resumption the trace is that of both rounds, with the submission between them. */
  lemma ResumptionIsTraced(c: Case, policy: Policy, clock: Clock, submission: Submission)
    requires StepResume(c, clock, policy, submission).Ok?
    ensures c.checkpoint.Some?
    ensures var after, s := StepResume(c, clock, policy, submission).value, c.checkpoint.value;
      && after.checkpoint.Some?
      && var t, n := after.checkpoint.value.telemetry, |s.telemetry.events|;
         && |t.events| == n + 4 && s.telemetry.events <= t.events
         && t.events[n].kind == ReviewResumed && t.events[n].component == "human_review"
         && t.events[n].status == "revision_submitted"
         && t.events[n + 1].kind == AssessmentStarted && t.events[n + 2].kind == GateEvaluated
         && t.events[n + 3].kind == (match after.assessment.value.status
                                     case PendingReview => ReviewRequested
                                     case Failed => AssessmentFailed
                                     case _ => AssessmentCompleted)
         && t.humanWaitMs.Some? && t.totalMs == submission.durationMs + t.humanWaitMs.value
         && t.executionMs == submission.durationMs && t.reviewStatus == after.checkpoint.value.reviewStatus
  {
    hide StepResume, ProcessCandidate, WaitMillis, GateOf;
    ResumedFrom(c, policy, clock, submission);
    var s := c.checkpoint.value;
    CandidateIsTraced(c, clock, policy, submission, signals => signals, s.revisionCount, false);
    GateSettlesTheRow(c, clock, policy, submission, signals => signals, s.revisionCount, false);
  }

  /** The calls before the gate: a new row is pending, then processing, and an error fails it under its own shortened texts. */
  lemma GenerationIsRecorded(c: Case, policy: Policy, clock: Clock, code: string, message: string)
    ensures c.assessment == None ==> var after := Step(c, Create, policy, clock).value.assessment.value;
      && after.status == Pending && after.result == None && after.createdAt == clock(c.readings)
    ensures InStatus(c, Pending) ==> var after := Step(c, Begin, policy, clock).value.assessment.value;
      after == c.assessment.value.(status := Processing, updatedAt := clock(c.readings))
    ensures InStatus(c, Processing) ==> var after := Step(c, FailGeneration(code, message), policy, clock).value.assessment.value;
      FailedWith(after, if |code| <= 100 then code else code[..100], if |message| <= 500 then message else message[..500])
  {
  }
}
