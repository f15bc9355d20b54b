/**
  The life of one assessment under runtime governance: creation, generation, the gate, and human review with its
  checkpoint, append-only log and telemetry. Every step is a function of the case; what holds after every run of
  steps is proved about those functions. The tables and the service that update them are in `GovernanceService`.
*/
module Governance {
  import opened Collections
  import opened Gate
  import opened Wrappers

  type AssessmentId = nat
  // Microseconds.
  type Time = int

  datatype AssessmentStatus = Pending | Processing | PendingReview | Completed | Failed

  datatype Assessment = Assessment(
    status: AssessmentStatus, result: Option<AssessmentResult>, execution: Option<Execution>,
    errorCode: Option<string>, errorMessage: Option<string>, completedAt: Option<Time>, createdAt: Time, updatedAt: Time)

  datatype ReviewStatus = NotRequired | Awaiting | Approved | Rejected | RevisionWanted

  datatype ReviewAction = Requested | Approval | Rejection | RevisionRequest | RevisionSubmission

  datatype ReviewEvent = ReviewEvent(
    assessmentId: AssessmentId, action: ReviewAction, previous: ReviewStatus, next: ReviewStatus,
    reviewer: Option<string>, actor: Option<Actor>, comment: Option<string>, reasonCodes: seq<ReasonCode>, number: nat,
    createdAt: Time)

  // The authenticated reviewer's columns of an audit entry.
  datatype Actor = Actor(
    subject: string, email: Option<string>, role: string, issuer: string, requestId: Option<string>)

  datatype TraceKind =
    | AssessmentStarted | GateEvaluated | ReviewRequested | ReviewResumed | ReviewApproved | ReviewRejected
    | RevisionRequested | AssessmentCompleted | AssessmentFailed

  datatype TraceEvent = TraceEvent(timestamp: Time, kind: TraceKind, component: string, status: string)

  datatype Health = Full | DegradedHealth | Blocked | PendingHumanReview

  datatype Telemetry = Telemetry(
    health: Health, totalMs: nat, executionMs: nat, humanWaitMs: Option<nat>, reviewStatus: ReviewStatus,
    terminationReason: string, events: seq<TraceEvent>)

  datatype Checkpoint = Checkpoint(
    gate: GateResult, reviewStatus: ReviewStatus, candidate: Option<AssessmentResult>, execution: Option<Execution>,
    telemetry: Telemetry, revisionCount: nat, maxRevisions: nat, createdAt: Time, updatedAt: Time)

  // Everything stored about one assessment, and how often the clock has been read.
  datatype Case = Case(
    id: AssessmentId, assessment: Option<Assessment>, checkpoint: Option<Checkpoint>, log: seq<ReviewEvent>, readings: nat)

  datatype GovernanceError =
    | AssessmentNotFound | RuntimeStateNotFound | InvalidReviewTransition | RevisionLimitReached | Persistence
    // The assessment service's own order of calls does not reach this step here.
    | OutOfOrder

  datatype Submission = Submission(
    result: AssessmentResult, evidenceCount: nat, execution: Execution, durationMs: nat, provenanceValid: bool)

  // A reviewer's action; the identifier in the request itself only counts without an authenticated reviewer.
  datatype ReviewRequest = ReviewRequest(legacyReviewer: Option<string>, comment: Option<string>, actor: Option<Actor>)

  function Reviewer(request: ReviewRequest): Option<string> {
    match request.actor
    case None => request.legacyReviewer
    case Some(actor) => Some(actor.subject)
  }

  // What the clock shows at each reading.
  type Clock = nat -> Time

  ghost predicate Rising(clock: Clock) {
    forall i: nat, j: nat | i < j :: clock(i) < clock(j)
  }

  // ---- The repositories' updates ----

  function Tick(c: Case): Case {
    c.(readings := c.readings + 1)
  }

  function Created(now: Time): Assessment {
    Assessment(Pending, None, None, None, None, None, now, now)
  }

  function AsProcessing(a: Assessment, now: Time): Assessment {
    a.(status := Processing, updatedAt := now)
  }

  function AsCompleted(a: Assessment, result: AssessmentResult, execution: Option<Execution>, now: Time): Assessment {
    a.(status := Completed, result := Some(result), execution := execution, errorCode := None, errorMessage := None,
       completedAt := Some(now), updatedAt := now)
  }

  function AsPendingReview(a: Assessment, execution: Option<Execution>, now: Time): Assessment {
    a.(status := PendingReview, result := None, execution := execution, errorCode := None, errorMessage := None,
       completedAt := None, updatedAt := now)
  }

  function AsFailed(a: Assessment, errorCode: string, errorMessage: string, now: Time): Assessment {
    a.(status := Failed, result := None, execution := None, errorCode := Some(TakeFirst(errorCode, 100)),
       errorMessage := Some(TakeFirst(errorMessage, 500)), completedAt := None, updatedAt := now)
  }

  // The assessment's row is replaced at the next reading of the clock.
  function SetAssessment(c: Case, a: Assessment): Case {
    c.(assessment := Some(a), readings := c.readings + 1)
  }

  function SaveState(c: Case, clock: Clock, gate: GateResult, reviewStatus: ReviewStatus,
                     candidate: Option<AssessmentResult>, execution: Option<Execution>, telemetry: Telemetry,
                     revisionCount: nat, maxRevisions: nat): Case
  {
    var now := clock(c.readings);
    var createdAt := if c.checkpoint.Some? then c.checkpoint.value.createdAt else now;
    c.(checkpoint := Some(Checkpoint(gate, reviewStatus, candidate, execution, telemetry, revisionCount, maxRevisions,
                                     createdAt, now)),
       readings := c.readings + 1)
  }

  function AddEvent(c: Case, clock: Clock, action: ReviewAction, previous: ReviewStatus, next: ReviewStatus,
                    request: ReviewRequest, reasonCodes: seq<ReasonCode>, number: nat): Case
  {
    var event := ReviewEvent(c.id, action, previous, next, Reviewer(request), request.actor, request.comment, reasonCodes,
                             number, clock(c.readings));
    c.(log := c.log + [event], readings := c.readings + 1)
  }

  // The audit entry of a step no reviewer takes.
  const NOBODY := ReviewRequest(None, None, None)

  // ---- Telemetry ----

  // Nearest millisecond, ties to even.
  function RoundMillis(micros: int): int {
    var whole, rest := micros / 1000, micros % 1000;
    if rest > 500 || (rest == 500 && whole % 2 == 1) then whole + 1 else whole
  }

  function WaitMillis(micros: int): nat {
    if RoundMillis(micros) < 0 then 0 else RoundMillis(micros)
  }

  function DecisionName(decision: Decision): string {
    match decision
    case AutoComplete => "auto_complete"
    case CompleteWithWarning => "complete_with_warning"
    case RequireHumanReview => "require_human_review"
    case BlockAndEscalate => "block_and_escalate"
  }

  function StatusName(status: ReviewStatus): string {
    match status
    case NotRequired => "not_required"
    case Awaiting => "pending"
    case Approved => "approved"
    case Rejected => "rejected"
    case RevisionWanted => "revision_requested"
  }

  function TerminationName(execution: Execution): string {
    match execution
    case Deterministic(_) => "completed"
    case MultiAgent(_, _, _, _, reason) => reason
    case SingleAgent(_, termination, _) =>
      match termination
      case WorkCompleted => "completed"
      case MaxStepsReached => "max_steps_reached"
      case MaxToolCallsReached => "max_tool_calls_reached"
      case AgentStopped => "agent_stopped"
      case WorkFailed => "failed"
  }

  // Unlike the gate's signal, this leaves the state of the graph retrieval out.
  predicate RanDegraded(execution: Execution) {
    match execution
    case Deterministic(_) => false
    case SingleAgent(_, termination, _) => termination != WorkCompleted && termination != AgentStopped
    case MultiAgent(_, degradedMode, _, _, _) => degradedMode
  }

  function BuildTelemetry(execution: Execution, durationMs: nat, decision: Decision, now: Time): Telemetry {
    var health :=
      if decision == RequireHumanReview then PendingHumanReview
      else if decision == BlockAndEscalate then Blocked
      else if RanDegraded(execution) then DegradedHealth
      else Full;
    var status := if decision == RequireHumanReview then Awaiting else NotRequired;
    Telemetry(health, durationMs, durationMs, None, status, TerminationName(execution),
              [TraceEvent(now - 1000 * durationMs, AssessmentStarted, "assessment", "started"),
               TraceEvent(now, GateEvaluated, "runtime_risk_gate", DecisionName(decision))])
  }

  function AppendEvent(t: Telemetry, event: TraceEvent): Telemetry {
    t.(events := t.events + [event])
  }

  // The review ends at `now`; the two events carry the following readings of the clock.
  function ReviewTelemetry(s: Checkpoint, status: ReviewStatus, kind: TraceKind, clock: Clock, reading: nat): Telemetry {
    var wait := WaitMillis(clock(reading) - s.updatedAt);
    var t := s.telemetry.(reviewStatus := status, humanWaitMs := Some(wait), totalMs := s.telemetry.executionMs + wait,
                          health := if status == Approved then Full else s.telemetry.health);
    AppendEvent(AppendEvent(t, TraceEvent(clock(reading + 1), ReviewResumed, "human_review", StatusName(status))),
                TraceEvent(clock(reading + 2), kind, "human_review", StatusName(status)))
  }

  // ---- Processing a candidate ----

  const GATE_BLOCKED := "runtime_risk_gate_blocked"
  const GATE_MESSAGE := "The assessment was blocked by the runtime risk and quality gate."
  const REVIEW_REJECTED := "human_review_rejected"
  const REVIEW_MESSAGE := "The assessment was rejected during human review."

  function Settled(a: Assessment, decision: Decision, submission: Submission, now: Time): Assessment {
    match decision
    case RequireHumanReview => AsPendingReview(a, Some(submission.execution), now)
    case BlockAndEscalate => AsFailed(a, GATE_BLOCKED, GATE_MESSAGE, now)
    case _ => AsCompleted(a, submission.result, Some(submission.execution), now)
  }

  function SettledEvent(decision: Decision, now: Time): TraceEvent {
    match decision
    case RequireHumanReview => TraceEvent(now, ReviewRequested, "human_review", "pending")
    case BlockAndEscalate => TraceEvent(now, AssessmentFailed, "assessment", "blocked")
    case _ => TraceEvent(now, AssessmentCompleted, "assessment", DecisionName(decision))
  }

  function GateOf(submission: Submission, adjust: Signals -> Signals, policy: Policy): GateResult {
    Gate.Result(
      adjust(DeriveSignals(submission.result, submission.evidenceCount, submission.execution, submission.provenanceValid)),
      policy)
  }

  // The event of the settled assessment, the checkpoint and the audit entry of a requested review.
  function RecordGated(marked: Case, clock: Clock, policy: Policy, gate: GateResult, submission: Submission,
                       started: Telemetry, revisionCount: nat, record: bool): Case
  {
    var status := if gate.decision == RequireHumanReview then Awaiting else NotRequired;
    var telemetry := AppendEvent(started, SettledEvent(gate.decision, clock(marked.readings)));
    var saved := SaveState(Tick(marked), clock, gate, status, Some(submission.result), Some(submission.execution),
                           telemetry, revisionCount, policy.maxHumanRevisions);
    if status == Awaiting && record
    then AddEvent(saved, clock, Requested, NotRequired, Awaiting, NOBODY, gate.reasonCodes, revisionCount)
    else saved
  }

  function ProcessCandidate(c: Case, clock: Clock, policy: Policy, submission: Submission, adjust: Signals -> Signals,
                            revisionCount: nat, record: bool): Result<Case, GovernanceError>
  {
    if c.assessment.None? then Err(Persistence)
    else
      var gate := GateOf(submission, adjust, policy);
      var started := BuildTelemetry(submission.execution, submission.durationMs, gate.decision, clock(c.readings));
      var marked := SetAssessment(Tick(c), Settled(c.assessment.value, gate.decision, submission, clock(c.readings + 1)));
      Ok(RecordGated(marked, clock, policy, gate, submission, started, revisionCount, record))
  }

  // ---- The actions ----

  datatype Action =
    | Create
    | Begin
    | FailGeneration(code: string, message: string)
    | Finish(submission: Submission, adjust: Signals -> Signals)
    | Approve(request: ReviewRequest)
    | Reject(request: ReviewRequest)
    | RequestRevision(request: ReviewRequest)
    | Resume(submission: Submission)

  function RequiredState(c: Case): Result<Checkpoint, GovernanceError> {
    if c.assessment.None? then Err(AssessmentNotFound)
    else if c.checkpoint.None? then Err(RuntimeStateNotFound)
    else Ok(c.checkpoint.value)
  }

  function StateIn(c: Case, status: ReviewStatus): Result<Checkpoint, GovernanceError> {
    match RequiredState(c)
    case Err(e) => Err(e)
    case Ok(s) => if s.reviewStatus == status then Ok(s) else Err(InvalidReviewTransition)
  }

  // `_persist_transition`.
  function PersistTransition(c: Case, clock: Clock, s: Checkpoint, action: ReviewAction, next: ReviewStatus,
                             request: ReviewRequest, telemetry: Telemetry, revisionCount: nat): Case
  {
    AddEvent(SaveState(c, clock, s.gate, next, s.candidate, s.execution, telemetry, revisionCount, s.maxRevisions),
             clock, action, Awaiting, next, request, s.gate.reasonCodes, revisionCount)
  }

  function StepApprove(c: Case, clock: Clock, request: ReviewRequest): Result<Case, GovernanceError> {
    match StateIn(c, Awaiting)
    case Err(e) => Err(e)
    case Ok(s) =>
      if s.candidate.None? then Err(Persistence)
      else
        var marked := SetAssessment(
          c, AsCompleted(c.assessment.value, s.candidate.value, s.execution, clock(c.readings)));
        var telemetry := ReviewTelemetry(s, Approved, ReviewApproved, clock, marked.readings);
        Ok(PersistTransition(Tick(Tick(Tick(marked))), clock, s, Approval, Approved, request, telemetry, s.revisionCount))
  }

  function StepReject(c: Case, clock: Clock, request: ReviewRequest): Result<Case, GovernanceError> {
    match StateIn(c, Awaiting)
    case Err(e) => Err(e)
    case Ok(s) =>
      var marked := SetAssessment(c, AsFailed(c.assessment.value, REVIEW_REJECTED, REVIEW_MESSAGE, clock(c.readings)));
      var telemetry := ReviewTelemetry(s, Rejected, ReviewRejected, clock, marked.readings)
        .(health := Blocked, terminationReason := "human_rejection");
      Ok(PersistTransition(Tick(Tick(Tick(marked))), clock, s, Rejection, Rejected, request, telemetry, s.revisionCount))
  }

  function StepRequestRevision(c: Case, clock: Clock, request: ReviewRequest): Result<Case, GovernanceError> {
    match StateIn(c, Awaiting)
    case Err(e) => Err(e)
    case Ok(s) =>
      if s.revisionCount >= s.maxRevisions then Err(RevisionLimitReached)
      else
        var telemetry := ReviewTelemetry(s, RevisionWanted, RevisionRequested, clock, c.readings);
        Ok(PersistTransition(Tick(Tick(Tick(c))), clock, s, RevisionRequest, RevisionWanted, request, telemetry,
                             s.revisionCount + 1))
  }

  function MergedTelemetry(before: Checkpoint, after: Checkpoint, resumedAt: Time): Telemetry {
    var wait := WaitMillis(resumedAt - before.updatedAt);
    after.telemetry.(
      humanWaitMs := Some(wait), totalMs := after.telemetry.executionMs + wait,
      events := before.telemetry.events + [TraceEvent(resumedAt, ReviewResumed, "human_review", "revision_submitted")]
                + after.telemetry.events)
  }

  // The checkpoint of the processed candidate is written again with the telemetry of both rounds.
  function FinishResume(processed: Case, s: Checkpoint, clock: Clock): Case
    requires processed.checkpoint.Some?
  {
    var renewed := processed.checkpoint.value;
    var merged := MergedTelemetry(s, renewed, clock(processed.readings));
    var saved := SaveState(Tick(processed), clock, renewed.gate, renewed.reviewStatus, renewed.candidate, renewed.execution,
                           merged, renewed.revisionCount, renewed.maxRevisions);
    AddEvent(saved, clock, RevisionSubmission, RevisionWanted, renewed.reviewStatus, NOBODY, renewed.gate.reasonCodes,
             s.revisionCount)
  }

  function StepResume(c: Case, clock: Clock, policy: Policy, submission: Submission): Result<Case, GovernanceError> {
    match StateIn(c, RevisionWanted)
    case Err(e) => Err(e)
    case Ok(s) =>
      match ProcessCandidate(c, clock, policy, submission, signals => signals, s.revisionCount, false)
      case Err(e) => Err(e)
      case Ok(processed) => Ok(FinishResume(processed, s, clock))
  }

  predicate InStatus(c: Case, status: AssessmentStatus) {
    c.assessment.Some? && c.assessment.value.status == status
  }

  // One committed call; a call that raises leaves the case as it was.
  function Step(c: Case, action: Action, policy: Policy, clock: Clock): Result<Case, GovernanceError> {
    var now := clock(c.readings);
    match action
    case Create => if c.assessment.Some? then Err(OutOfOrder) else Ok(SetAssessment(c, Created(now)))
    case Begin =>
      if !InStatus(c, Pending) then Err(OutOfOrder) else Ok(SetAssessment(c, AsProcessing(c.assessment.value, now)))
    case FailGeneration(code, message) =>
      if !InStatus(c, Processing) then Err(OutOfOrder)
      else Ok(SetAssessment(c, AsFailed(c.assessment.value, code, message, now)))
    case Finish(submission, adjust) =>
      if !InStatus(c, Processing) then Err(OutOfOrder)
      else ProcessCandidate(c, clock, policy, submission, adjust, 0, true)
    case Approve(request) => StepApprove(c, clock, request)
    case Reject(request) => StepReject(c, clock, request)
    case RequestRevision(request) => StepRequestRevision(c, clock, request)
    case Resume(submission) => StepResume(c, clock, policy, submission)
  }

  // How the generator's work ended: a candidate, or an error's public code and message.
  datatype Generation = Generated(submission: Submission) | Raised(code: string, message: string)

  function LastAction(generation: Generation): Action {
    match generation
    case Generated(submission) => Finish(submission, signals => signals)
    case Raised(code, message) => FailGeneration(code, message)
  }

  function Start(id: AssessmentId, readings: nat): Case {
    Case(id, None, None, [], readings)
  }

  // The case after a run of calls, the failing ones included.
  function RunAll(id: AssessmentId, actions: seq<Action>, policy: Policy, clock: Clock): Case {
    if actions == [] then Start(id, 0)
    else
      var before := RunAll(id, actions[..|actions| - 1], policy, clock);
      match Step(before, actions[|actions| - 1], policy, clock)
      case Ok(after) => after
      case Err(_) => before
  }

  // ---- What the log says ----

  function StatusBefore(log: seq<ReviewEvent>, i: nat): ReviewStatus
    requires i <= |log|
  {
    if i == 0 then NotRequired else log[i - 1].next
  }

  // Each event starts in the status where the one before it ended.
  predicate Chained(log: seq<ReviewEvent>) {
    forall i | 0 <= i < |log| :: log[i].previous == StatusBefore(log, i)
  }

  predicate Dated(log: seq<ReviewEvent>) {
    forall i, j | 0 <= i < j < |log| :: log[i].createdAt < log[j].createdAt
  }

  function RequestNumbers(log: seq<ReviewEvent>): seq<nat> {
    if log == [] then []
    else
      var last := log[|log| - 1];
      RequestNumbers(log[..|log| - 1]) + if last.action == RevisionRequest then [last.number] else []
  }

  function UpTo(n: nat): seq<nat> {
    seq(n, i => i + 1)
  }

  // How many events a log holds when the review stands at `status` after `revisions` revisions.
  predicate RightLength(length: nat, status: ReviewStatus, revisions: nat) {
    match status
    case NotRequired => if length == 0 then revisions == 0 else revisions >= 1 && length == 1 + 2 * revisions
    case Awaiting => length == 1 + 2 * revisions
    case RevisionWanted => revisions >= 1 && length == 2 * revisions
    case Approved => length == 2 + 2 * revisions
    case Rejected => length == 2 + 2 * revisions
  }

  // `get_revision_feedback`'s search, newest first.
  function FindFeedback(log: seq<ReviewEvent>, number: nat): Option<ReviewEvent> {
    if log == [] then None
    else
      var last := log[|log| - 1];
      if last.action == RevisionRequest && last.number == number then Some(last)
      else FindFeedback(log[..|log| - 1], number)
  }

  function RevisionFeedback(c: Case): Result<ReviewEvent, GovernanceError> {
    match StateIn(c, RevisionWanted)
    case Err(e) => Err(e)
    case Ok(s) =>
      match FindFeedback(c.log, s.revisionCount)
      case Some(event) => Ok(event)
      case None => Err(Persistence)
  }

  // ---- The invariant ----

  // The response schema's lifecycle validator, over the record's own error fields.
  predicate ValidResponse(a: Assessment) {
    var hasError := a.errorCode.Some? && a.errorMessage.Some?;
    match a.status
    case Completed => a.result.Some? && a.completedAt.Some? && !hasError
    case Failed => a.result.None? && hasError
    case PendingReview => a.result.None? && !hasError && a.completedAt.None?
    case _ => true
  }

  // The assessment's status agrees with the checkpoint, the gate and the log.
  predicate Agrees(a: Assessment, s: Checkpoint, log: seq<ReviewEvent>) {
    && (a.status == PendingReview <==> s.reviewStatus in {Awaiting, RevisionWanted})
    && (s.reviewStatus == Rejected ==> a.status == Failed)
    && (s.reviewStatus == NotRequired ==> a.status in {Completed, Failed})
    && (s.reviewStatus == NotRequired <==> s.gate.decision != RequireHumanReview)
    && (s.reviewStatus == Approved ==> a.status == Completed && |log| > 0 && log[|log| - 1].action == Approval)
    && (s.gate.decision == BlockAndEscalate ==> a.status == Failed)
    && (a.status == Completed ==> a.result == s.candidate)
  }

  // The health a checkpoint reports.
  function HealthAt(status: ReviewStatus, decision: Decision, execution: Execution): Health {
    match status
    case Awaiting => PendingHumanReview
    case RevisionWanted => PendingHumanReview
    case Approved => Full
    case Rejected => Blocked
    case NotRequired =>
      if decision == BlockAndEscalate then Blocked else if RanDegraded(execution) then DegradedHealth else Full
  }

  predicate Accounted(s: Checkpoint) {
    && s.telemetry.reviewStatus == s.reviewStatus && s.execution.Some?
    && s.telemetry.health == HealthAt(s.reviewStatus, s.gate.decision, s.execution.value)
    && s.telemetry.totalMs == s.telemetry.executionMs
       + if s.telemetry.humanWaitMs.Some? then s.telemetry.humanWaitMs.value else 0
  }

  predicate Logged(c: Case, s: Checkpoint) {
    && Chained(c.log) && StatusBefore(c.log, |c.log|) == s.reviewStatus
    && RequestNumbers(c.log) == UpTo(s.revisionCount)
    && RightLength(|c.log|, s.reviewStatus, s.revisionCount)
    && (s.reviewStatus == RevisionWanted ==>
          c.log[|c.log| - 1].action == RevisionRequest && c.log[|c.log| - 1].number == s.revisionCount)
  }

  ghost predicate Timely(c: Case, clock: Clock) {
    && Dated(c.log)
    && (forall i | 0 <= i < |c.log| :: c.log[i].createdAt < clock(c.readings))
    && (c.checkpoint.Some? ==> c.checkpoint.value.updatedAt < clock(c.readings))
  }

  ghost predicate Inv(c: Case, policy: Policy, clock: Clock) {
    && Timely(c, clock)
    && (c.assessment.Some? ==> ValidResponse(c.assessment.value))
    && match c.checkpoint
       case None =>
         c.log == [] && (c.assessment.Some? ==> c.assessment.value.status in {Pending, Processing, Failed})
       case Some(s) =>
         && c.assessment.Some? && s.candidate.Some?
         && Agrees(c.assessment.value, s, c.log)
         && s.revisionCount <= s.maxRevisions == policy.maxHumanRevisions
         && Accounted(s) && Logged(c, s)
  }

  // ---- Keeping the invariant ----

  lemma ChainedAppend(log: seq<ReviewEvent>, event: ReviewEvent)
    requires Chained(log) && event.previous == StatusBefore(log, |log|)
    ensures Chained(log + [event]) && StatusBefore(log + [event], |log| + 1) == event.next
  {
    forall i | 0 <= i < |log + [event]| ensures (log + [event])[i].previous == StatusBefore(log + [event], i) {
      if i < |log| {
        assert log[i].previous == StatusBefore(log, i);
      }
    }
  }

  lemma DatedAppend(log: seq<ReviewEvent>, event: ReviewEvent)
    requires Dated(log) && forall i | 0 <= i < |log| :: log[i].createdAt < event.createdAt
    ensures Dated(log + [event])
  {
  }

  lemma RequestNumbersAppend(log: seq<ReviewEvent>, event: ReviewEvent)
    ensures RequestNumbers(log + [event])
         == RequestNumbers(log) + if event.action == RevisionRequest then [event.number] else []
  {
    assert (log + [event])[..|log|] == log;
  }

  lemma AppendedLog(log: seq<ReviewEvent>, event: ReviewEvent)
    requires Chained(log) && event.previous == StatusBefore(log, |log|)
    requires Dated(log) && forall i | 0 <= i < |log| :: log[i].createdAt < event.createdAt
    ensures Chained(log + [event]) && Dated(log + [event])
    ensures StatusBefore(log + [event], |log| + 1) == event.next
    ensures RequestNumbers(log + [event])
         == RequestNumbers(log) + if event.action == RevisionRequest then [event.number] else []
  {
    hide Chained, Dated, RequestNumbers;
    ChainedAppend(log, event);
    DatedAppend(log, event);
    RequestNumbersAppend(log, event);
  }

  // One more event closes a step whose checkpoint is already written.
  lemma LoggedAfter(c: Case, clock: Clock, action: ReviewAction, previous: ReviewStatus, next: ReviewStatus,
                    request: ReviewRequest, codes: seq<ReasonCode>, number: nat, saved: Case)
    requires Rising(clock) && Timely(c, clock) && c.readings <= saved.readings && saved.log == c.log
    requires saved.checkpoint.Some? && saved.checkpoint.value.updatedAt < clock(saved.readings)
    requires Chained(c.log) && StatusBefore(c.log, |c.log|) == previous
    ensures var after := AddEvent(saved, clock, action, previous, next, request, codes, number);
      && Timely(after, clock) && Chained(after.log) && StatusBefore(after.log, |after.log|) == next
      && RequestNumbers(after.log) == RequestNumbers(c.log) + (if action == RevisionRequest then [number] else [])
      && after.log[|after.log| - 1].action == action && after.log[|after.log| - 1].number == number
  {
    hide RequestNumbers;
    var after := AddEvent(saved, clock, action, previous, next, request, codes, number);
    assert clock(c.readings) <= clock(saved.readings) < clock(after.readings);
    AppendedLog(c.log, after.log[|c.log|]);
  }

  lemma NextUpTo(n: nat)
    ensures UpTo(n) + [n + 1] == UpTo(n + 1)
  {
  }

  lemma LaterReading(c: Case, later: nat, clock: Clock)
    requires Rising(clock) && Timely(c, clock) && c.readings <= later
    ensures Timely(c.(readings := later), clock)
  {
    assert clock(c.readings) <= clock(later);
  }

  lemma ApproveKeeps(c: Case, policy: Policy, clock: Clock, request: ReviewRequest)
    requires Rising(clock) && Inv(c, policy, clock) && StepApprove(c, clock, request).Ok?
    ensures Inv(StepApprove(c, clock, request).value, policy, clock)
  {
    hide RequestNumbers, Chained, Dated, UpTo, WaitMillis, TakeFirst;
    var s := c.checkpoint.value;
    var marked := SetAssessment(c, AsCompleted(c.assessment.value, s.candidate.value, s.execution, clock(c.readings)));
    var telemetry := ReviewTelemetry(s, Approved, ReviewApproved, clock, marked.readings);
    var saved := SaveState(Tick(Tick(Tick(marked))), clock, s.gate, Approved, s.candidate, s.execution, telemetry,
                           s.revisionCount, s.maxRevisions);
    LoggedAfter(c, clock, Approval, Awaiting, Approved, request, s.gate.reasonCodes, s.revisionCount, saved);
    assert RequestNumbers(c.log) + [] == RequestNumbers(c.log);
  }

  lemma RejectKeeps(c: Case, policy: Policy, clock: Clock, request: ReviewRequest)
    requires Rising(clock) && Inv(c, policy, clock) && StepReject(c, clock, request).Ok?
    ensures Inv(StepReject(c, clock, request).value, policy, clock)
  {
    hide RequestNumbers, Chained, Dated, UpTo, WaitMillis, TakeFirst;
    var s := c.checkpoint.value;
    var marked := SetAssessment(c, AsFailed(c.assessment.value, REVIEW_REJECTED, REVIEW_MESSAGE, clock(c.readings)));
    var telemetry := ReviewTelemetry(s, Rejected, ReviewRejected, clock, marked.readings)
      .(health := Blocked, terminationReason := "human_rejection");
    var saved := SaveState(Tick(Tick(Tick(marked))), clock, s.gate, Rejected, s.candidate, s.execution, telemetry,
                           s.revisionCount, s.maxRevisions);
    LoggedAfter(c, clock, Rejection, Awaiting, Rejected, request, s.gate.reasonCodes, s.revisionCount, saved);
    assert RequestNumbers(c.log) + [] == RequestNumbers(c.log);
  }

  lemma WaitingIsAccounted(s: Checkpoint, waiting: Checkpoint, clock: Clock, reading: nat)
    requires Accounted(s) && s.reviewStatus == Awaiting
    requires waiting.telemetry == ReviewTelemetry(s, RevisionWanted, RevisionRequested, clock, reading)
    requires waiting.reviewStatus == RevisionWanted && waiting.gate == s.gate && waiting.execution == s.execution
    ensures Accounted(waiting)
  {
    hide WaitMillis;
  }

  lemma RequestRevisionKeeps(c: Case, policy: Policy, clock: Clock, request: ReviewRequest)
    requires Rising(clock) && Inv(c, policy, clock) && StepRequestRevision(c, clock, request).Ok?
    ensures Inv(StepRequestRevision(c, clock, request).value, policy, clock)
  {
    hide RequestNumbers, Chained, Dated, UpTo, WaitMillis, ValidResponse, RanDegraded, Accounted;
    var s := c.checkpoint.value;
    var telemetry := ReviewTelemetry(s, RevisionWanted, RevisionRequested, clock, c.readings);
    var saved := SaveState(Tick(Tick(Tick(c))), clock, s.gate, RevisionWanted, s.candidate, s.execution, telemetry,
                           s.revisionCount + 1, s.maxRevisions);
    WaitingIsAccounted(s, saved.checkpoint.value, clock, c.readings);
    LoggedAfter(c, clock, RevisionRequest, Awaiting, RevisionWanted, request, s.gate.reasonCodes, s.revisionCount + 1,
                saved);
    NextUpTo(s.revisionCount);
  }

  // What a processed candidate leaves behind, before the review log is written.
  ghost predicate Processed(before: Case, after: Case, policy: Policy, clock: Clock) {
    && after.id == before.id && after.log == before.log && before.readings + 4 <= after.readings
    && after.assessment.Some? && ValidResponse(after.assessment.value) && after.checkpoint.Some?
    && var s := after.checkpoint.value;
    && s.candidate.Some? && s.reviewStatus in {Awaiting, NotRequired} && Agrees(after.assessment.value, s, after.log)
    && Accounted(s) && s.telemetry.humanWaitMs.None?
    && s.maxRevisions == policy.maxHumanRevisions && s.updatedAt < clock(after.readings)
  }

  lemma ProcessedUnlogged(c: Case, clock: Clock, policy: Policy, submission: Submission, adjust: Signals -> Signals,
                          revisionCount: nat)
    requires Rising(clock) && c.assessment.Some?
    ensures ProcessCandidate(c, clock, policy, submission, adjust, revisionCount, false).Ok?
    ensures var after := ProcessCandidate(c, clock, policy, submission, adjust, revisionCount, false).value;
      && Processed(c, after, policy, clock) && after.checkpoint.value.revisionCount == revisionCount
  {
    hide Gate.Result, DeriveSignals, TakeFirst;
    var after := ProcessCandidate(c, clock, policy, submission, adjust, revisionCount, false).value;
    assert after.checkpoint.value.gate == GateOf(submission, adjust, policy);
    assert after.checkpoint.value.updatedAt == clock(c.readings + 3);
  }

  lemma ProcessingIsUngated(c: Case, policy: Policy, clock: Clock)
    requires Inv(c, policy, clock) && InStatus(c, Processing)
    ensures c.checkpoint.None? && c.log == []
  {
  }

  lemma FinishKeeps(c: Case, policy: Policy, clock: Clock, submission: Submission, adjust: Signals -> Signals)
    requires Rising(clock) && Inv(c, policy, clock) && InStatus(c, Processing)
    requires ProcessCandidate(c, clock, policy, submission, adjust, 0, true).Ok?
    ensures Inv(ProcessCandidate(c, clock, policy, submission, adjust, 0, true).value, policy, clock)
  {
    hide ProcessCandidate, RequestNumbers, Chained, Dated, UpTo, Agrees, Accounted, ValidResponse;
    ProcessedUnlogged(c, clock, policy, submission, adjust, 0);
    RecordedRequest(c, clock, policy, submission, adjust);
    var saved := ProcessCandidate(c, clock, policy, submission, adjust, 0, false).value;
    var s := saved.checkpoint.value;
    EmptyLog();
    ProcessingIsUngated(c, policy, clock);
    if s.reviewStatus == Awaiting {
      LoggedAfter(c, clock, Requested, NotRequired, Awaiting, NOBODY, s.gate.reasonCodes, 0, saved);
      var after := AddEvent(saved, clock, Requested, NotRequired, Awaiting, NOBODY, s.gate.reasonCodes, 0);
      MergedAgrees(saved.assessment.value, s, c.log, s, after.log);
    }
  }

  // Recording the request adds its event and nothing else.
  lemma RecordedRequest(c: Case, clock: Clock, policy: Policy, submission: Submission, adjust: Signals -> Signals)
    requires c.assessment.Some?
    ensures ProcessCandidate(c, clock, policy, submission, adjust, 0, false).Ok?
    ensures ProcessCandidate(c, clock, policy, submission, adjust, 0, false).value.checkpoint.Some?
    ensures ProcessCandidate(c, clock, policy, submission, adjust, 0, true) == Ok(
      var saved := ProcessCandidate(c, clock, policy, submission, adjust, 0, false).value;
      var s := saved.checkpoint.value;
      if s.reviewStatus == Awaiting then AddEvent(saved, clock, Requested, NotRequired, Awaiting, NOBODY, s.gate.reasonCodes, 0)
      else saved)
  {
    hide Gate.Result, DeriveSignals, GateOf, BuildTelemetry, Settled, SettledEvent, AddEvent;
  }

  lemma EmptyLog()
    ensures Chained([]) && Dated([]) && RequestNumbers([]) == UpTo(0) == []
  {
  }

  lemma MergedIsAccounted(before: Checkpoint, after: Checkpoint, resumedAt: Time, merged: Checkpoint)
    requires Accounted(after) && merged.reviewStatus == after.reviewStatus
    requires merged.gate == after.gate && merged.execution == after.execution
    requires merged.telemetry == MergedTelemetry(before, after, resumedAt)
    ensures Accounted(merged)
  {
    hide WaitMillis;
  }

  // A resumed revision is the processed candidate with the telemetry of both rounds and one more event.
  lemma ResumedFrom(c: Case, policy: Policy, clock: Clock, submission: Submission)
    requires StepResume(c, clock, policy, submission).Ok?
    ensures StateIn(c, RevisionWanted).Ok? && c.assessment.Some?
    ensures var s := StateIn(c, RevisionWanted).value;
      var processed := ProcessCandidate(c, clock, policy, submission, signals => signals, s.revisionCount, false);
      processed.Ok? && processed.value.checkpoint.Some? &&
      var renewed := processed.value.checkpoint.value;
      var merged := MergedTelemetry(s, renewed, clock(processed.value.readings));
      var saved := SaveState(Tick(processed.value), clock, renewed.gate, renewed.reviewStatus, renewed.candidate,
                             renewed.execution, merged, renewed.revisionCount, renewed.maxRevisions);
      StepResume(c, clock, policy, submission).value ==
      AddEvent(saved, clock, RevisionSubmission, RevisionWanted, renewed.reviewStatus, NOBODY, renewed.gate.reasonCodes,
               s.revisionCount)
  {
    hide Gate.Result, DeriveSignals, GateOf, BuildTelemetry, Settled, SettledEvent, AddEvent, MergedTelemetry;
  }

  lemma ResumeKeeps(c: Case, policy: Policy, clock: Clock, submission: Submission)
    requires Rising(clock) && Inv(c, policy, clock) && StepResume(c, clock, policy, submission).Ok?
    ensures Inv(StepResume(c, clock, policy, submission).value, policy, clock)
  {
    hide StepResume, ProcessCandidate, RequestNumbers, Chained, Dated, UpTo, Agrees, Accounted, ValidResponse, MergedTelemetry;
    ResumedFrom(c, policy, clock, submission);
    var s := c.checkpoint.value;
    ProcessedUnlogged(c, clock, policy, submission, signals => signals, s.revisionCount);
    var processed := ProcessCandidate(c, clock, policy, submission, signals => signals, s.revisionCount, false).value;
    var renewed := processed.checkpoint.value;
    var merged := MergedTelemetry(s, renewed, clock(processed.readings));
    var saved := SaveState(Tick(processed), clock, renewed.gate, renewed.reviewStatus, renewed.candidate,
                           renewed.execution, merged, renewed.revisionCount, renewed.maxRevisions);
    MergedIsAccounted(s, renewed, clock(processed.readings), saved.checkpoint.value);
    LoggedAfter(c, clock, RevisionSubmission, RevisionWanted, renewed.reviewStatus, NOBODY, renewed.gate.reasonCodes,
                s.revisionCount, saved);
    var after := AddEvent(saved, clock, RevisionSubmission, RevisionWanted, renewed.reviewStatus, NOBODY,
                          renewed.gate.reasonCodes, s.revisionCount);
    MergedAgrees(processed.assessment.value, renewed, processed.log, after.checkpoint.value, after.log);
    assert RequestNumbers(c.log) + [] == RequestNumbers(c.log);
  }

  // Outside an approval the log and the telemetry play no part in the agreement.
  lemma MergedAgrees(a: Assessment, s: Checkpoint, log: seq<ReviewEvent>, t: Checkpoint, longer: seq<ReviewEvent>)
    requires Agrees(a, s, log) && s.reviewStatus != Approved
    requires t.reviewStatus == s.reviewStatus && t.gate == s.gate && t.candidate == s.candidate
    ensures Agrees(a, t, longer)
  {
  }

  /** Every committed call keeps the invariant. */
  lemma StepKeepsInvariant(c: Case, action: Action, policy: Policy, clock: Clock)
    requires Rising(clock) && Inv(c, policy, clock) && Step(c, action, policy, clock).Ok?
    ensures Inv(Step(c, action, policy, clock).value, policy, clock)
  {
    match action {
      case Finish(submission, adjust) => FinishKeeps(c, policy, clock, submission, adjust);
      case Approve(request) => ApproveKeeps(c, policy, clock, request);
      case Reject(request) => RejectKeeps(c, policy, clock, request);
      case RequestRevision(request) => RequestRevisionKeeps(c, policy, clock, request);
      case Resume(submission) => ResumeKeeps(c, policy, clock, submission);
      case _ =>
        hide TakeFirst, ProcessCandidate, RequestNumbers;
        LaterReading(c, c.readings + 1, clock);
    }
  }

  /** The invariant holds after every run, whatever the calls and whichever of them fail. */
  lemma {:induction false} EveryRunIsSafe(id: AssessmentId, actions: seq<Action>, policy: Policy, clock: Clock)
    requires Rising(clock)
    ensures Inv(RunAll(id, actions, policy, clock), policy, clock)
  {
    hide Step;
    if actions != [] {
      EveryRunIsSafe(id, actions[..|actions| - 1], policy, clock);
      var before := RunAll(id, actions[..|actions| - 1], policy, clock);
      if Step(before, actions[|actions| - 1], policy, clock).Ok? {
        StepKeepsInvariant(before, actions[|actions| - 1], policy, clock);
      }
    }
  }

  // ---- What the invariant gives ----

  /** A result is published only when the gate lets it through or a reviewer has approved it, and it is the candidate. */
  lemma PublishedOnlyWhenAllowed(id: AssessmentId, actions: seq<Action>, policy: Policy, clock: Clock)
    requires Rising(clock)
    ensures var c := RunAll(id, actions, policy, clock);
      c.assessment.Some? && c.assessment.value.result.Some? && c.assessment.value.status == Completed ==>
        && c.checkpoint.Some? && c.assessment.value.result == c.checkpoint.value.candidate
        && match c.checkpoint.value.gate.decision
           case BlockAndEscalate => false
           case RequireHumanReview => c.log != [] && c.log[|c.log| - 1].action == Approval
           case _ => true
  {
    EveryRunIsSafe(id, actions, policy, clock);
  }

  /**
    What a completed assessment's health says in every run: an approval makes it full, and otherwise it is degraded
    exactly when the execution reports so itself.
  */
  lemma CompletedHealth(id: AssessmentId, actions: seq<Action>, policy: Policy, clock: Clock)
    requires Rising(clock)
    ensures var c := RunAll(id, actions, policy, clock);
      InStatus(c, Completed) && c.checkpoint.Some? ==>
        var s := c.checkpoint.value;
        && s.execution.Some? && s.telemetry.health in {Full, DegradedHealth}
        && (s.telemetry.health == DegradedHealth <==> s.reviewStatus != Approved && RanDegraded(s.execution.value))
  {
    hide RunAll, RequestNumbers, Chained, Dated, RanDegraded;
    EveryRunIsSafe(id, actions, policy, clock);
  }

  // The telemetry and the gate's signal disagree on executions degraded in their graph retrieval and nowhere else.
  lemma DegradedAgreesExactly(execution: Execution)
    ensures RanDegraded(execution) ==> Degraded(execution)
    ensures RanDegraded(execution) == Degraded(execution)
            <==> RanDegraded(execution) || !(execution.graph.Some? && execution.graph.value.degraded)
  {
  }

  // No switch of the policy sends such an execution to review, and nothing else about its candidate does or blocks it.
  predicate PassesUnreviewed(submission: Submission, policy: Policy)
    requires submission.execution.graph.Some?
  {
    var execution, graph, risk := submission.execution, submission.execution.graph.value, WorstLevel(submission.result.risks);
    && !policy.reviewOnDegradedExecution
    && ((graph.graphErrorCode == "" && graph.vectorErrorCode == "") || !policy.reviewOnInsufficientEvidence)
    && (execution.MultiAgent? && (SpecialistFailed in execution.statuses || SpecialistSkipped in execution.statuses) ==>
          !policy.reviewOnSpecialistUnavailable)
    && (!execution.Deterministic? && execution.toolFailures > 0 ==> !policy.reviewOnToolFailure)
    && RiskDecision(risk, policy) in {AutoComplete, CompleteWithWarning}
    && (risk in {High, Critical} ==>
          && (submission.evidenceCount > 0 || !policy.reviewOnInsufficientEvidence)
          && (submission.provenanceValid || !policy.blockHighRiskInvalidProvenance)
          && submission.result.reviewRecommended)
    && (risk == Critical ==> Mitigated(submission.result.risks) || !policy.blockCriticalMissingMitigation)
  }

  lemma DegradedGraphGate(submission: Submission, policy: Policy)
    requires Degraded(submission.execution) && !RanDegraded(submission.execution)
    ensures submission.execution.graph.Some?
    ensures var gate := GateOf(submission, signals => signals, policy);
      && DegradedExecution in gate.reasonCodes
      && (gate.decision in {AutoComplete, CompleteWithWarning} <==> PassesUnreviewed(submission, policy))
  {
    DegradedAgreesExactly(submission.execution);
    hide Reported, WorstLevel, Mitigated, RanDegraded;
    assert REPORT_ORDER[5] == DegradedExecution;
  }

  lemma FinishedHealth(c: Case, clock: Clock, policy: Policy, submission: Submission)
    requires c.assessment.Some?
    ensures var after := ProcessCandidate(c, clock, policy, submission, signals => signals, 0, true);
      && after.Ok? && after.value.checkpoint.Some?
      && after.value.checkpoint.value.telemetry.health ==
         (match GateOf(submission, signals => signals, policy).decision
          case RequireHumanReview => PendingHumanReview
          case BlockAndEscalate => Blocked
          case _ => if RanDegraded(submission.execution) then DegradedHealth else Full)
  {
    hide Gate.Result, DeriveSignals, GateOf, Settled, SettledEvent, RanDegraded;
  }

  /**
    An execution degraded in its graph retrieval alone: the gate always lists the degradation, and the assessment is
    completed at once, then with full health, exactly when every review switch that sees the failure is off (the one
    for degraded execution, and for reported error codes also the one for insufficient evidence) and nothing else
    about the candidate calls for review or a block.
  */
  lemma DegradedGraphReportsFullHealth(c: Case, clock: Clock, policy: Policy, submission: Submission)
    requires InStatus(c, Processing) && Degraded(submission.execution) && !RanDegraded(submission.execution)
    ensures submission.execution.graph.Some?
    ensures var done := Step(c, Finish(submission, signals => signals), policy, clock);
      && done.Ok? && done.value.checkpoint.Some?
      && DegradedExecution in done.value.checkpoint.value.gate.reasonCodes
      && (InStatus(done.value, Completed) <==> PassesUnreviewed(submission, policy))
      && (InStatus(done.value, Completed) <==> done.value.checkpoint.value.telemetry.health == Full)
  {
    hide PassesUnreviewed, ProcessCandidate, GateOf, StepResume, StepApprove, StepReject, StepRequestRevision, Degraded,
         RanDegraded;
    DegradedGraphGate(submission, policy);
    CandidateIsGated(c, clock, policy, submission, signals => signals, 0, true);
    FinishedHealth(c, clock, policy, submission);
    CandidateSettled(c, clock, policy, submission);
  }

  lemma CandidateSettled(c: Case, clock: Clock, policy: Policy, submission: Submission)
    requires c.assessment.Some?
    ensures var after := ProcessCandidate(c, clock, policy, submission, signals => signals, 0, true);
      after.Ok? && (InStatus(after.value, Completed)
                    <==> GateOf(submission, signals => signals, policy).decision in {AutoComplete, CompleteWithWarning})
  {
    hide Gate.Result, DeriveSignals, GateOf, BuildTelemetry, SettledEvent, TakeFirst;
  }

  /**
    The execution that the hybrid retrieval reports when the graph store is down, with a candidate without risks:
    completed with full health when both review switches are off, and otherwise waiting for review.
  */
  lemma UnavailableGraphNeedsBothSwitchesOff(c: Case, clock: Clock, policy: Policy, submission: Submission)
    requires InStatus(c, Processing) && submission.result.risks == []
    requires submission.execution == Deterministic(Some(GraphRetrieval(true, "knowledge_graph_unavailable", "")))
    ensures var done := Step(c, Finish(submission, signals => signals), policy, clock);
      && done.Ok? && done.value.checkpoint.Some?
      && DegradedExecution in done.value.checkpoint.value.gate.reasonCodes
      && var health := done.value.checkpoint.value.telemetry.health;
      if !policy.reviewOnDegradedExecution && !policy.reviewOnInsufficientEvidence
      then InStatus(done.value, Completed) && health == Full
      else InStatus(done.value, PendingReview) && health == PendingHumanReview
  {
    hide ProcessCandidate, GateOf, StepResume, StepApprove, StepReject, StepRequestRevision;
    DegradedGraphReportsFullHealth(c, clock, policy, submission);
    CandidateIsGated(c, clock, policy, submission, signals => signals, 0, true);
    FinishedHealth(c, clock, policy, submission);
    NoRisksNeverBlock(submission, policy);
  }

  lemma NoRisksNeverBlock(submission: Submission, policy: Policy)
    requires submission.result.risks == []
    ensures var gate := GateOf(submission, signals => signals, policy);
      gate.decision in {AutoComplete, RequireHumanReview} && gate.reviewRequired == (gate.decision == RequireHumanReview)
  {
    hide Reported, Mitigated, Degraded;
  }

  /** The audit log of any run is short, unbroken and numbers its revision requests 1, 2, 3... */
  lemma LogOfEveryRun(id: AssessmentId, actions: seq<Action>, policy: Policy, clock: Clock)
    requires Rising(clock)
    ensures var c := RunAll(id, actions, policy, clock);
      && Chained(c.log) && Dated(c.log) && |c.log| <= 2 * policy.maxHumanRevisions + 2
      && (c.checkpoint.Some? ==>
            && StatusBefore(c.log, |c.log|) == c.checkpoint.value.reviewStatus
            && RequestNumbers(c.log) == UpTo(c.checkpoint.value.revisionCount))
  {
    hide RunAll, RequestNumbers;
    EveryRunIsSafe(id, actions, policy, clock);
  }

  lemma UpToInit(n: nat)
    requires n > 0
    ensures UpTo(n) == UpTo(n - 1) + [n]
  {
  }

  /** Every numbered request can be found again. */
  lemma {:induction false} FeedbackIsFound(log: seq<ReviewEvent>, n: nat, k: nat)
    requires RequestNumbers(log) == UpTo(n) && 1 <= k <= n
    ensures FindFeedback(log, k).Some?
    ensures FindFeedback(log, k).value in log
    ensures FindFeedback(log, k).value.action == RevisionRequest && FindFeedback(log, k).value.number == k
    decreases |log|
  {
    var last := log[|log| - 1];
    if last.action == RevisionRequest {
      UpToInit(n);
      assert RequestNumbers(log[..|log| - 1]) == UpTo(n - 1) && last.number == n by {
        assert RequestNumbers(log)[..n - 1] == RequestNumbers(log[..|log| - 1]);
        assert UpTo(n)[..n - 1] == UpTo(n - 1);
      }
      if k < n {
        FeedbackIsFound(log[..|log| - 1], n - 1, k);
      }
    } else {
      assert RequestNumbers(log) == RequestNumbers(log[..|log| - 1]);
      FeedbackIsFound(log[..|log| - 1], n, k);
    }
  }

  /** While a revision is wanted the feedback read back is the reviewer's newest event. */
  lemma FeedbackIsTheNewestRequest(c: Case, policy: Policy, clock: Clock)
    requires Inv(c, policy, clock) && StateIn(c, RevisionWanted).Ok?
    ensures c.log != [] && RevisionFeedback(c) == Ok(c.log[|c.log| - 1])
  {
    hide RequestNumbers, Chained, Dated;
  }

  /** Nothing more can be done to a completed or failed assessment. */
  lemma TerminalIsFinal(c: Case, action: Action, policy: Policy, clock: Clock)
    requires Inv(c, policy, clock) && c.assessment.Some? && c.assessment.value.status in {Completed, Failed}
    ensures Step(c, action, policy, clock).Err?
  {
    hide RequestNumbers, Chained, Dated, ProcessCandidate, TakeFirst;
  }

  /** When each review call goes through; in particular the candidate is never found missing. */
  lemma ReviewCallsExactlyWhenAllowed(c: Case, request: ReviewRequest, submission: Submission, policy: Policy, clock: Clock)
    requires Inv(c, policy, clock) && c.checkpoint.Some?
    ensures Step(c, Approve(request), policy, clock).Ok? <==> c.checkpoint.value.reviewStatus == Awaiting
    ensures Step(c, Reject(request), policy, clock).Ok? <==> c.checkpoint.value.reviewStatus == Awaiting
    ensures Step(c, RequestRevision(request), policy, clock).Ok?
            <==> c.checkpoint.value.reviewStatus == Awaiting && c.checkpoint.value.revisionCount < policy.maxHumanRevisions
    ensures Step(c, Resume(submission), policy, clock).Ok? <==> c.checkpoint.value.reviewStatus == RevisionWanted
  {
    hide RequestNumbers, Chained, Dated, Gate.Result, DeriveSignals, GateOf, BuildTelemetry, Settled, SettledEvent;
  }

  // The log and the telemetry's events are continued, never rewritten.
  predicate Continues(before: Case, after: Case) {
    && before.log <= after.log
    && (before.checkpoint.Some? ==>
          after.checkpoint.Some?
          && before.checkpoint.value.telemetry.events <= after.checkpoint.value.telemetry.events)
  }

  lemma StepContinues(c: Case, action: Action, policy: Policy, clock: Clock)
    requires Step(c, action, policy, clock).Ok? && Inv(c, policy, clock)
    ensures Continues(c, Step(c, action, policy, clock).value)
  {
    hide RequestNumbers, Chained, Dated, TakeFirst, WaitMillis, StepResume, Agrees, Accounted;
    match action {
      case Finish(submission, adjust) => FinishContinues(c, policy, clock, submission, adjust);
      case Resume(submission) => ResumeContinues(c, policy, clock, submission);
      case _ => hide ProcessCandidate;
    }
  }

  lemma FinishContinues(c: Case, policy: Policy, clock: Clock, submission: Submission, adjust: Signals -> Signals)
    requires Inv(c, policy, clock) && InStatus(c, Processing)
    ensures ProcessCandidate(c, clock, policy, submission, adjust, 0, true).Ok?
    ensures Continues(c, ProcessCandidate(c, clock, policy, submission, adjust, 0, true).value)
  {
    ProcessingIsUngated(c, policy, clock);
    hide ProcessCandidate, Inv;
    RecordedRequest(c, clock, policy, submission, adjust);
  }

  lemma ResumeContinues(c: Case, policy: Policy, clock: Clock, submission: Submission)
    requires StepResume(c, clock, policy, submission).Ok?
    ensures Continues(c, StepResume(c, clock, policy, submission).value)
  {
    hide StepResume, ProcessCandidate, WaitMillis;
    ResumedFrom(c, policy, clock, submission);
    ProcessedKeepsLog(c, clock, policy, submission, signals => signals, c.checkpoint.value.revisionCount);
  }

  lemma ProcessedKeepsLog(c: Case, clock: Clock, policy: Policy, submission: Submission, adjust: Signals -> Signals,
                          revisionCount: nat)
    requires c.assessment.Some?
    ensures ProcessCandidate(c, clock, policy, submission, adjust, revisionCount, false).value.log == c.log
  {
    hide Gate.Result, DeriveSignals, GateOf, BuildTelemetry, Settled, SettledEvent;
  }

  /** Over any further calls the log and the telemetry events only grow at their end. */
  lemma {:induction false} RunsContinue(id: AssessmentId, actions: seq<Action>, more: seq<Action>, policy: Policy, clock: Clock)
    requires Rising(clock)
    ensures Continues(RunAll(id, actions, policy, clock), RunAll(id, actions + more, policy, clock))
    decreases |more|
  {
    hide Step, Inv, Rising;
    var all := actions + more;
    if more == [] {
      assert all == actions;
    } else {
      assert all[..|all| - 1] == actions + more[..|more| - 1];
      RunsContinue(id, actions, more[..|more| - 1], policy, clock);
      var before := RunAll(id, all[..|all| - 1], policy, clock);
      EveryRunIsSafe(id, all[..|all| - 1], policy, clock);
      if Step(before, all[|all| - 1], policy, clock).Ok? {
        StepContinues(before, all[|all| - 1], policy, clock);
      }
    }
  }

  lemma WaitFrom(c: Case, clock: Clock, s: Checkpoint, reading: nat)
    requires Rising(clock) && Timely(c, clock) && c.checkpoint == Some(s) && c.readings <= reading
    ensures -500 <= 1000 * WaitMillis(clock(reading) - s.updatedAt) - (clock(reading) - s.updatedAt) <= 500
  {
    hide Dated;
    assert s.updatedAt < clock(c.readings) <= clock(reading);
    RoundIsNearest(clock(reading) - s.updatedAt);
  }

  /** The recorded wait is the time since the last checkpoint, to the nearest millisecond. */
  lemma WaitIsMeasured(c: Case, action: Action, policy: Policy, clock: Clock)
    requires Rising(clock) && Inv(c, policy, clock) && Step(c, action, policy, clock).Ok?
    requires action.Approve? || action.Reject? || action.RequestRevision? || action.Resume?
    ensures var after := Step(c, action, policy, clock).value;
      var ended := clock(c.readings + ReadingsBeforeWaitEnds(action));
      && after.checkpoint.Some? && after.checkpoint.value.telemetry.humanWaitMs.Some?
      && -500 <= 1000 * after.checkpoint.value.telemetry.humanWaitMs.value - (ended - c.checkpoint.value.updatedAt) <= 500
  {
    hide RequestNumbers, Chained, Dated, TakeFirst, Agrees, WaitMillis, ProcessCandidate, StepResume, ValidResponse, Logged,
         Accounted, Rising, Timely, AsCompleted, AsFailed;
    if action.Resume? {
      ResumedWait(c, policy, clock, action.submission);
    }
    WaitFrom(c, clock, c.checkpoint.value, c.readings + ReadingsBeforeWaitEnds(action));
  }

  // How often a call has read the clock when it looks for the end of the wait.
  function ReadingsBeforeWaitEnds(action: Action): nat {
    match action
    case RequestRevision(_) => 0
    case Resume(_) => 4
    case _ => 1
  }

  lemma ResumedWait(c: Case, policy: Policy, clock: Clock, submission: Submission)
    requires StepResume(c, clock, policy, submission).Ok?
    ensures StateIn(c, RevisionWanted).Ok?
    ensures var after := StepResume(c, clock, policy, submission).value;
      && after.checkpoint.Some?
      && after.checkpoint.value.telemetry.humanWaitMs
         == Some(WaitMillis(clock(c.readings + 4) - c.checkpoint.value.updatedAt))
  {
    hide StepResume, ProcessCandidate, WaitMillis;
    ResumedFrom(c, policy, clock, submission);
    ProcessingReadsFour(c, clock, policy, submission, signals => signals, c.checkpoint.value.revisionCount);
  }

  lemma ProcessingReadsFour(c: Case, clock: Clock, policy: Policy, submission: Submission, adjust: Signals -> Signals,
                            revisionCount: nat)
    requires c.assessment.Some?
    ensures ProcessCandidate(c, clock, policy, submission, adjust, revisionCount, false).value.readings == c.readings + 4
  {
    hide Gate.Result, DeriveSignals, GateOf, BuildTelemetry, Settled, SettledEvent;
  }

  lemma RoundIsNearest(micros: int)
    requires micros >= 0
    ensures -500 <= 1000 * RoundMillis(micros) - micros <= 500 && RoundMillis(micros) >= 0
  {
  }

  // ---- What each call leaves as it was ----

  // Between two checkpoints the reviewed candidate and everything known about it stay.
  predicate SameCandidate(before: Checkpoint, after: Checkpoint) {
    && after.gate == before.gate && after.candidate == before.candidate && after.execution == before.execution
    && after.maxRevisions == before.maxRevisions && after.createdAt == before.createdAt
    && after.telemetry.executionMs == before.telemetry.executionMs
  }

  // One event, signed by the reviewer and explained by the gate's reasons, closes the log.
  predicate SignedBy(before: Case, after: Case, request: ReviewRequest, gate: GateResult, number: nat) {
    && |after.log| == |before.log| + 1 && before.log <= after.log
    && var event := after.log[|before.log|];
    && event.assessmentId == before.id && event.comment == request.comment && event.actor == request.actor
    && event.reviewer == (if request.actor.Some? then Some(request.actor.value.subject) else request.legacyReviewer)
    && event.reasonCodes == gate.reasonCodes && event.number == number
  }

  /** An approval publishes the reviewed candidate with its execution and leaves the checkpoint's candidate alone. */
  lemma ApprovalPublishes(c: Case, clock: Clock, request: ReviewRequest)
    requires StepApprove(c, clock, request).Ok?
    ensures var after, s := StepApprove(c, clock, request).value, c.checkpoint.value;
      && after.checkpoint.Some? && SameCandidate(s, after.checkpoint.value)
      && after.checkpoint.value.revisionCount == s.revisionCount && after.checkpoint.value.telemetry.health == Full
      && SignedBy(c, after, request, s.gate, s.revisionCount)
      && after.assessment.value.status == Completed
      && after.assessment.value.result == s.candidate && after.assessment.value.execution == s.execution
      && after.assessment.value.createdAt == c.assessment.value.createdAt
  {
    hide WaitMillis;
  }

  /** A rejection fails the assessment with its own code and leaves the checkpoint's candidate alone. */
  lemma RejectionWithdraws(c: Case, clock: Clock, request: ReviewRequest)
    requires StepReject(c, clock, request).Ok?
    ensures var after, s := StepReject(c, clock, request).value, c.checkpoint.value;
      && after.checkpoint.Some? && SameCandidate(s, after.checkpoint.value)
      && after.checkpoint.value.revisionCount == s.revisionCount && after.checkpoint.value.telemetry.health == Blocked
      && SignedBy(c, after, request, s.gate, s.revisionCount)
      && after.assessment.value.status == Failed && after.assessment.value.result.None?
      && after.assessment.value.errorCode == Some("human_review_rejected") && after.assessment.value.execution.None?
      && after.assessment.value.createdAt == c.assessment.value.createdAt
  {
    hide WaitMillis;
  }

  /** A revision request touches neither the assessment nor the candidate and counts one revision. */
  lemma RevisionRequestWaits(c: Case, clock: Clock, request: ReviewRequest)
    requires StepRequestRevision(c, clock, request).Ok?
    ensures var after, s := StepRequestRevision(c, clock, request).value, c.checkpoint.value;
      && after.checkpoint.Some? && SameCandidate(s, after.checkpoint.value)
      && after.checkpoint.value.revisionCount == s.revisionCount + 1
      && after.checkpoint.value.telemetry.health == s.telemetry.health
      && SignedBy(c, after, request, s.gate, s.revisionCount + 1)
      && after.assessment == c.assessment
  {
    hide WaitMillis;
  }

  // The candidate stored is the one submitted, under the gate's result on its own signals.
  predicate Holds(s: Checkpoint, submission: Submission, gate: GateResult) {
    && s.gate == gate && s.candidate == Some(submission.result) && s.execution == Some(submission.execution)
    && s.telemetry.executionMs == submission.durationMs
  }

  /** A processed candidate is stored under its own gate result, and the gate alone decides what becomes of the assessment. */
  lemma CandidateIsGated(c: Case, clock: Clock, policy: Policy, submission: Submission, adjust: Signals -> Signals,
                         revisionCount: nat, record: bool)
    requires c.assessment.Some?
    ensures ProcessCandidate(c, clock, policy, submission, adjust, revisionCount, record).Ok?
    ensures var after := ProcessCandidate(c, clock, policy, submission, adjust, revisionCount, record).value;
      var gate := GateOf(submission, adjust, policy);
      && after.assessment.Some? && after.checkpoint.Some? && Holds(after.checkpoint.value, submission, gate)
      && after.checkpoint.value.revisionCount == revisionCount
      && (after.assessment.value.status == PendingReview <==> gate.reviewRequired)
      && (after.assessment.value.status == Failed <==> gate.blocked)
      && (after.assessment.value.status == Completed ==> after.assessment.value.result == Some(submission.result))
      && |after.log| == |c.log| + (if gate.reviewRequired && record then 1 else 0)
  {
    hide DeriveSignals, Outcome, Reported, TakeFirst, BuildTelemetry;
    StartedTelemetry(submission, GateOf(submission, adjust, policy).decision, clock(c.readings));
  }

  lemma StartedTelemetry(submission: Submission, decision: Decision, now: Time)
    ensures BuildTelemetry(submission.execution, submission.durationMs, decision, now).executionMs == submission.durationMs
  {
  }

  /** A resumed revision stores the new candidate under its own gate result, in the same round of the same case. */
  lemma ResumptionReplacesTheCandidate(c: Case, policy: Policy, clock: Clock, submission: Submission)
    requires StepResume(c, clock, policy, submission).Ok?
    ensures var after, s := StepResume(c, clock, policy, submission).value, c.checkpoint.value;
      var gate := GateOf(submission, signals => signals, policy);
      && c.checkpoint.Some? && after.checkpoint.Some? && Holds(after.checkpoint.value, submission, gate)
      && after.checkpoint.value.revisionCount == s.revisionCount
      && SignedBy(c, after, NOBODY, gate, s.revisionCount) && after.log[|c.log|].action == RevisionSubmission
      && after.log[|c.log|].next == (if gate.reviewRequired then Awaiting else NotRequired)
  {
    hide StepResume, ProcessCandidate, WaitMillis, GateOf;
    ResumedFrom(c, policy, clock, submission);
    var s := c.checkpoint.value;
    CandidateIsGated(c, clock, policy, submission, signals => signals, s.revisionCount, false);
    ProcessedKeepsLog(c, clock, policy, submission, signals => signals, s.revisionCount);
    ProcessedStatus(c, clock, policy, submission, signals => signals, s.revisionCount);
  }

  lemma ProcessedStatus(c: Case, clock: Clock, policy: Policy, submission: Submission, adjust: Signals -> Signals,
                        revisionCount: nat)
    requires c.assessment.Some?
    ensures var after := ProcessCandidate(c, clock, policy, submission, adjust, revisionCount, false).value;
      && after.id == c.id && after.checkpoint.Some?
      && after.checkpoint.value.reviewStatus == (if GateOf(submission, adjust, policy).reviewRequired then Awaiting else NotRequired)
  {
    hide DeriveSignals, Outcome, Reported, TakeFirst, BuildTelemetry, Settled, SettledEvent;
  }
}
