/**
  The assessment, checkpoint and review-event tables of one session, and the service that drives them. Every method of
  the service is proved against `Governance.Step` on the case it names, and leaves all other cases alone.
*/
module RuntimeReviews {
  import opened Collections
  import opened Gate
  import opened Governance
  import opened Wrappers

  // The rows of one assessment, in the order in which they were added.
  function EventsOf(events: seq<ReviewEvent>, id: AssessmentId): seq<ReviewEvent> {
    if events == [] then []
    else
      var last := events[|events| - 1];
      EventsOf(events[..|events| - 1], id) + if last.assessmentId == id then [last] else []
  }

  lemma EventsOfAppend(events: seq<ReviewEvent>, event: ReviewEvent, id: AssessmentId)
    ensures EventsOf(events + [event], id)
         == EventsOf(events, id) + if event.assessmentId == id then [event] else []
  {
    assert (events + [event])[..|events|] == events;
  }

  function Lookup<T>(rows: map<AssessmentId, T>, id: AssessmentId): Option<T> {
    if id in rows then Some(rows[id]) else None
  }

  class ReviewTables {
    const clock: Clock
    var assessments: map<AssessmentId, Assessment>
    var checkpoints: map<AssessmentId, Checkpoint>
    var events: seq<ReviewEvent>
    var readings: nat

    // Everything the tables hold about one assessment.
    function View(id: AssessmentId): Case
      reads this
    {
      Case(id, Lookup(assessments, id), Lookup(checkpoints, id), EventsOf(events, id), readings)
    }

    // Only the clock has moved for every other assessment.
    twostate predicate OthersKept(id: AssessmentId)
      reads this
    {
      forall other: AssessmentId | other != id :: View(other) == old(View(other)).(readings := readings)
    }

    constructor (clock: Clock)
      ensures this.clock == clock && readings == 0
      ensures forall id: AssessmentId :: View(id) == Start(id, 0)
    {
      this.clock := clock;
      assessments, checkpoints, events, readings := map[], map[], [], 0;
    }

    method Now() returns (now: Time)
      modifies this`readings
      ensures now == clock(old(readings)) && readings == old(readings) + 1
    {
      now := clock(readings);
      readings := readings + 1;
    }

    method Create(id: AssessmentId)
      requires id !in assessments
      modifies this`assessments, this`readings
      ensures View(id) == SetAssessment(old(View(id)), Created(clock(old(readings))))
      ensures OthersKept(id)
    {
      var now := Now();
      assessments := assessments[id := Created(now)];
    }

    method MarkProcessing(id: AssessmentId) returns (found: bool)
      modifies this`assessments, this`readings
      ensures found == (id in old(assessments))
      ensures found ==> View(id) == SetAssessment(old(View(id)), AsProcessing(old(assessments[id]), clock(old(readings))))
      ensures !found ==> unchanged(this)
      ensures OthersKept(id)
    {
      if id !in assessments {
        return false;
      }
      var now := Now();
      assessments := assessments[id := assessments[id].(status := Processing, updatedAt := now)];
      return true;
    }

    method MarkCompleted(id: AssessmentId, result: AssessmentResult, execution: Option<Execution>) returns (found: bool)
      modifies this`assessments, this`readings
      ensures found == (id in old(assessments))
      ensures found ==> (View(id) ==
        SetAssessment(old(View(id)), AsCompleted(old(assessments[id]), result, execution, clock(old(readings)))))
      ensures !found ==> unchanged(this)
      ensures OthersKept(id)
    {
      if id !in assessments {
        return false;
      }
      var now := Now();
      assessments := assessments[id := assessments[id].(
        status := AssessmentStatus.Completed, result := Some(result), execution := execution, errorCode := None,
        errorMessage := None, completedAt := Some(now), updatedAt := now)];
      return true;
    }

    method MarkPendingReview(id: AssessmentId, execution: Option<Execution>) returns (found: bool)
      modifies this`assessments, this`readings
      ensures found == (id in old(assessments))
      ensures found ==> (View(id) ==
        SetAssessment(old(View(id)), AsPendingReview(old(assessments[id]), execution, clock(old(readings)))))
      ensures !found ==> unchanged(this)
      ensures OthersKept(id)
    {
      if id !in assessments {
        return false;
      }
      var now := Now();
      assessments := assessments[id := assessments[id].(
        status := PendingReview, result := None, execution := execution, errorCode := None, errorMessage := None,
        completedAt := None, updatedAt := now)];
      return true;
    }

    method MarkFailed(id: AssessmentId, errorCode: string, errorMessage: string) returns (found: bool)
      modifies this`assessments, this`readings
      ensures found == (id in old(assessments))
      ensures found ==> (View(id) ==
        SetAssessment(old(View(id)), AsFailed(old(assessments[id]), errorCode, errorMessage, clock(old(readings)))))
      ensures !found ==> unchanged(this)
      ensures OthersKept(id)
    {
      if id !in assessments {
        return false;
      }
      var now := Now();
      assessments := assessments[id := assessments[id].(
        status := AssessmentStatus.Failed, result := None, execution := None, errorCode := Some(TakeFirst(errorCode, 100)),
        errorMessage := Some(TakeFirst(errorMessage, 500)), completedAt := None, updatedAt := now)];
      return true;
    }

    // Creates the checkpoint or overwrites every field but its creation time.
    method SaveState(id: AssessmentId, gate: GateResult, reviewStatus: ReviewStatus, candidate: Option<AssessmentResult>,
                     execution: Option<Execution>, telemetry: Telemetry, revisionCount: nat, maxRevisions: nat)
      modifies this`checkpoints, this`readings
      ensures View(id) == Governance.SaveState(old(View(id)), clock, gate, reviewStatus, candidate, execution, telemetry,
                                               revisionCount, maxRevisions)
      ensures OthersKept(id)
    {
      var now := Now();
      if id !in checkpoints {
        checkpoints := checkpoints[id := Checkpoint(gate, reviewStatus, candidate, execution, telemetry, revisionCount,
                                                    maxRevisions, now, now)];
      } else {
        checkpoints := checkpoints[id := checkpoints[id].(
          gate := gate, reviewStatus := reviewStatus, candidate := candidate, execution := execution,
          telemetry := telemetry, revisionCount := revisionCount, maxRevisions := maxRevisions, updatedAt := now)];
      }
    }

    // Appends one row; no row is ever changed.
    method AddReviewEvent(id: AssessmentId, action: ReviewAction, previous: ReviewStatus, next: ReviewStatus,
                          request: ReviewRequest, reasonCodes: seq<ReasonCode>, number: nat)
      modifies this`events, this`readings
      ensures old(events) <= events
      ensures View(id) == AddEvent(old(View(id)), clock, action, previous, next, request, reasonCodes, number)
      ensures OthersKept(id)
    {
      hide EventsOf;
      var now := Now();
      var event := ReviewEvent(id, action, previous, next, Reviewer(request), request.actor, request.comment, reasonCodes,
                               number, now);
      forall other ensures EventsOf(events + [event], other)
                        == EventsOf(events, other) + if other == id then [event] else []
      {
        EventsOfAppend(events, event, other);
      }
      events := events + [event];
    }

    method ListReviewEvents(id: AssessmentId) returns (log: seq<ReviewEvent>)
      ensures log == View(id).log
    {
      log := [];
      for i := 0 to |events|
        invariant log == EventsOf(events[..i], id)
      {
        EventsOfAppend(events[..i], events[i], id);
        assert events[..i + 1] == events[..i] + [events[i]];
        if events[i].assessmentId == id {
          log := log + [events[i]];
        }
      }
      assert events[..|events|] == events;
    }
  }

  // What the caller of a review action is told.
  datatype ReviewDecision = ReviewDecision(
    action: ReviewAction, reviewStatus: ReviewStatus, assessmentStatus: AssessmentStatus, revisionCount: nat)

  // The response reports what is stored.
  predicate Tells(decision: ReviewDecision, c: Case) {
    && c.assessment.Some? && decision.assessmentStatus == c.assessment.value.status
    && c.checkpoint.Some? && decision.reviewStatus == c.checkpoint.value.reviewStatus
    && decision.revisionCount == c.checkpoint.value.revisionCount
    && c.log != [] && decision.action == c.log[|c.log| - 1].action
  }

  class GovernanceService {
    const tables: ReviewTables
    const policy: Policy

    constructor (tables: ReviewTables, policy: Policy)
      ensures this.tables == tables && this.policy == policy
      ensures Rising(tables.clock) && (forall id: AssessmentId :: tables.View(id) == Start(id, tables.readings)) ==> Valid()
    {
      this.tables, this.policy := tables, policy;
      new;
      StartIsSafe(tables.readings);
    }

    lemma StartIsSafe(readings: nat)
      ensures forall id: AssessmentId :: Inv(Start(id, readings), policy, tables.clock)
    {
    }

    // The invariant of every assessment in the tables.
    ghost predicate Valid()
      reads tables
    {
      Rising(tables.clock) && forall id: AssessmentId :: Inv(tables.View(id), policy, tables.clock)
    }

    // The call did to the case what the action does to it, and nothing when it fails.
    twostate predicate Performed(id: AssessmentId, action: Action, new failure: Option<GovernanceError>)
      reads tables
    {
      match Step(old(tables.View(id)), action, policy, tables.clock)
      case Ok(after) => failure.None? && tables.View(id) == after && tables.OthersKept(id)
      case Err(e) => failure == Some(e) && unchanged(tables)
    }

    ghost predicate AllSafe(cases: imap<AssessmentId, Case>) {
      Rising(tables.clock) && forall id: AssessmentId :: id in cases && Inv(cases[id], policy, tables.clock)
    }

    // All cases as they are now.
    lemma Snapshot() returns (was: imap<AssessmentId, Case>)
      requires Valid()
      ensures AllSafe(was)
      ensures forall id: AssessmentId :: id in was && was[id] == tables.View(id)
    {
      was := imap id: AssessmentId | true :: tables.View(id);
      forall id: AssessmentId ensures id in was && Inv(was[id], policy, tables.clock) {
        assert was[id] == tables.View(id);
      }
    }

    // The tables are valid again after a performed call.
    lemma PerformedIsValid(was: imap<AssessmentId, Case>, id: AssessmentId, action: Action)
      requires AllSafe(was)
      requires match Step(was[id], action, policy, tables.clock)
        case Ok(after) =>
          && tables.View(id) == after && was[id].readings <= tables.readings
          && forall other: AssessmentId | other != id :: tables.View(other) == was[other].(readings := tables.readings)
                                        && was[other].readings == was[id].readings
        case Err(_) => forall other: AssessmentId :: tables.View(other) == was[other]
      ensures Valid()
    {
      hide Step, Timely;
      if Step(was[id], action, policy, tables.clock).Ok? {
        StepKeepsInvariant(was[id], action, policy, tables.clock);
        forall other: AssessmentId | other != id ensures Inv(tables.View(other), policy, tables.clock) {
          LaterReading(was[other], tables.readings, tables.clock);
        }
      } else {
        forall other ensures Inv(tables.View(other), policy, tables.clock) {
          assert tables.View(other) == was[other];
        }
      }
    }

    method RequiredState(id: AssessmentId) returns (state: Result<Checkpoint, GovernanceError>)
      ensures state == Governance.RequiredState(tables.View(id))
    {
      if id !in tables.assessments {
        return Err(AssessmentNotFound);
      }
      if id !in tables.checkpoints {
        return Err(RuntimeStateNotFound);
      }
      return Ok(tables.checkpoints[id]);
    }

    method RequiredPendingState(id: AssessmentId) returns (state: Result<Checkpoint, GovernanceError>)
      ensures state == StateIn(tables.View(id), Awaiting)
    {
      state := RequiredState(id);
      if state.Ok? && state.value.reviewStatus != Awaiting {
        state := Err(InvalidReviewTransition);
      }
    }

    // `_review_telemetry`: the end of the wait and the two events are three readings of the clock.
    method TelemetryAfterReview(state: Checkpoint, status: ReviewStatus, kind: TraceKind) returns (telemetry: Telemetry)
      modifies tables`readings
      ensures telemetry == ReviewTelemetry(state, status, kind, tables.clock, old(tables.readings))
      ensures tables.readings == old(tables.readings) + 3
    {
      var now := tables.Now();
      var wait := WaitMillis(now - state.updatedAt);
      telemetry := state.telemetry.(
        reviewStatus := status, humanWaitMs := Some(wait), totalMs := state.telemetry.executionMs + wait,
        health := if status == Approved then Full else state.telemetry.health);
      now := tables.Now();
      telemetry := AppendEvent(telemetry, TraceEvent(now, ReviewResumed, "human_review", StatusName(status)));
      now := tables.Now();
      telemetry := AppendEvent(telemetry, TraceEvent(now, kind, "human_review", StatusName(status)));
    }

    // `_persist_transition`.
    method PersistTransition(id: AssessmentId, state: Checkpoint, action: ReviewAction, next: ReviewStatus,
                             request: ReviewRequest, telemetry: Telemetry, revisionCount: nat)
      modifies tables
      ensures tables.View(id) == Governance.PersistTransition(old(tables.View(id)), tables.clock, state, action, next,
                                                              request, telemetry, revisionCount)
      ensures tables.OthersKept(id) && old(tables.readings) <= tables.readings
      ensures id in old(tables.assessments) ==>
                Tells(ReviewDecision(action, next, old(tables.assessments[id].status), revisionCount), tables.View(id))
    {
      hide EventsOf;
      tables.SaveState(id, state.gate, next, state.candidate, state.execution, telemetry, revisionCount, state.maxRevisions);
      tables.AddReviewEvent(id, action, Awaiting, next, request, state.gate.reasonCodes, revisionCount);
    }

    // The writes of an approval, once the checkpoint is known to wait for it.
    method CommitApproval(id: AssessmentId, state: Checkpoint, request: ReviewRequest)
      requires StateIn(tables.View(id), Awaiting) == Ok(state) && state.candidate.Some?
      modifies tables
      ensures StepApprove(old(tables.View(id)), tables.clock, request) == Ok(tables.View(id))
      ensures tables.OthersKept(id) && old(tables.readings) <= tables.readings
      ensures Tells(ReviewDecision(Approval, Approved, AssessmentStatus.Completed, state.revisionCount), tables.View(id))
    {
      hide EventsOf, ReviewTelemetry, Governance.PersistTransition;
      var found := tables.MarkCompleted(id, state.candidate.value, state.execution);
      assert found;
      ghost var marked := tables.View(id);
      var telemetry := TelemetryAfterReview(state, Approved, ReviewApproved);
      assert tables.View(id) == Tick(Tick(Tick(marked)));
      PersistTransition(id, state, Approval, Approved, request, telemetry, state.revisionCount);
    }

    method Approve(id: AssessmentId, request: ReviewRequest) returns (decision: Result<ReviewDecision, GovernanceError>)
      requires Valid()
      modifies tables
      ensures Valid()
      ensures Performed(id, Action.Approve(request), if decision.Err? then Some(decision.error) else None)
      ensures decision.Ok? ==> Tells(decision.value, tables.View(id))
    {
      hide AllSafe, EventsOf, Inv, Rising, SetAssessment, ReviewTelemetry, Governance.PersistTransition;
      ghost var was := Snapshot();
      var state := RequiredPendingState(id);
      if state.Err? {
        decision := Err(state.error);
      } else if state.value.candidate.None? {
        decision := Err(Persistence);
      } else {
        CommitApproval(id, state.value, request);
        decision := Ok(ReviewDecision(Approval, Approved, tables.assessments[id].status, state.value.revisionCount));
      }
      PerformedIsValid(was, id, Action.Approve(request));
    }

    // The writes of a rejection.
    method CommitRejection(id: AssessmentId, state: Checkpoint, request: ReviewRequest)
      requires StateIn(tables.View(id), Awaiting) == Ok(state)
      modifies tables
      ensures StepReject(old(tables.View(id)), tables.clock, request) == Ok(tables.View(id))
      ensures tables.OthersKept(id) && old(tables.readings) <= tables.readings
      ensures Tells(ReviewDecision(Rejection, Rejected, AssessmentStatus.Failed, state.revisionCount), tables.View(id))
    {
      hide EventsOf, ReviewTelemetry, Governance.PersistTransition, TakeFirst;
      var found := tables.MarkFailed(id, REVIEW_REJECTED, REVIEW_MESSAGE);
      assert found;
      ghost var marked := tables.View(id);
      var telemetry := TelemetryAfterReview(state, Rejected, ReviewRejected);
      telemetry := telemetry.(health := Blocked, terminationReason := "human_rejection");
      assert tables.View(id) == Tick(Tick(Tick(marked)));
      PersistTransition(id, state, Rejection, Rejected, request, telemetry, state.revisionCount);
    }

    method Reject(id: AssessmentId, request: ReviewRequest) returns (decision: Result<ReviewDecision, GovernanceError>)
      requires Valid()
      modifies tables
      ensures Valid()
      ensures Performed(id, Action.Reject(request), if decision.Err? then Some(decision.error) else None)
      ensures decision.Ok? ==> Tells(decision.value, tables.View(id))
    {
      hide AllSafe, EventsOf, Inv, Rising, SetAssessment, ReviewTelemetry, Governance.PersistTransition;
      ghost var was := Snapshot();
      var state := RequiredPendingState(id);
      if state.Err? {
        decision := Err(state.error);
      } else {
        CommitRejection(id, state.value, request);
        decision := Ok(ReviewDecision(Rejection, Rejected, tables.assessments[id].status, state.value.revisionCount));
      }
      PerformedIsValid(was, id, Action.Reject(request));
    }

    method RequestRevision(id: AssessmentId, request: ReviewRequest)
      returns (decision: Result<ReviewDecision, GovernanceError>)
      requires Valid()
      modifies tables
      ensures Valid()
      ensures Performed(id, Action.RequestRevision(request), if decision.Err? then Some(decision.error) else None)
      ensures decision.Ok? ==> Tells(decision.value, tables.View(id))
    {
      hide AllSafe, EventsOf, Inv, Rising, ReviewTelemetry, Governance.PersistTransition, AddEvent, Governance.SaveState,
           Governance.ProcessCandidate, StepApprove, StepReject, StepResume;
      ghost var was := Snapshot();
      var state := RequiredPendingState(id);
      if state.Err? {
        decision := Err(state.error);
      } else if state.value.revisionCount >= state.value.maxRevisions {
        decision := Err(RevisionLimitReached);
      } else {
        PendingIsPaused(id);
        var revision := state.value.revisionCount + 1;
        var telemetry := TelemetryAfterReview(state.value, RevisionWanted, RevisionRequested);
        PersistTransition(id, state.value, RevisionRequest, RevisionWanted, request, telemetry, revision);
        decision := Ok(ReviewDecision(RevisionRequest, RevisionWanted, PendingReview, revision));
      }
      PerformedIsValid(was, id, Action.RequestRevision(request));
    }

    // The assessment status the revision response reports as a constant is the stored one.
    lemma PendingIsPaused(id: AssessmentId)
      requires Valid() && StateIn(tables.View(id), Awaiting).Ok?
      ensures tables.assessments[id].status == PendingReview
    {
      hide Chained, Dated, RequestNumbers, ValidResponse, EventsOf;
      assert Inv(tables.View(id), policy, tables.clock);
    }

    // The newest matching event, searched from the end.
    method GetRevisionFeedback(id: AssessmentId) returns (feedback: Result<ReviewEvent, GovernanceError>)
      ensures feedback == RevisionFeedback(tables.View(id))
    {
      hide EventsOf;
      var state := RequiredState(id);
      if state.Err? {
        return Err(state.error);
      }
      if state.value.reviewStatus != RevisionWanted {
        return Err(InvalidReviewTransition);
      }
      var log := tables.ListReviewEvents(id);
      assert log[..|log|] == log;
      for i := |log| downto 0
        invariant FindFeedback(log, state.value.revisionCount) == FindFeedback(log[..i], state.value.revisionCount)
      {
        assert log[..i + 1][..i] == log[..i];
        if log[i].action == RevisionRequest && log[i].number == state.value.revisionCount {
          return Ok(log[i]);
        }
      }
      return Err(Persistence);
    }

    method ProcessCandidate(id: AssessmentId, submission: Submission, adjust: Signals -> Signals, revisionCount: nat,
                            recordReviewRequest: bool)
      returns (failure: Option<GovernanceError>)
      modifies tables
      ensures old(tables.readings) <= tables.readings
      ensures match Governance.ProcessCandidate(old(tables.View(id)), tables.clock, policy, submission, adjust,
                                                revisionCount, recordReviewRequest)
        case Ok(after) => failure.None? && tables.View(id) == after && tables.OthersKept(id)
        case Err(e) => failure == Some(e) && unchanged(tables`assessments, tables`checkpoints, tables`events)
    {
      hide EventsOf, DeriveSignals, Gate.Result, Settled, BuildTelemetry, RecordGated;
      var signals := ComputeSignals(submission.result, submission.evidenceCount, submission.execution,
                                    submission.provenanceValid);
      var gate := Evaluate(adjust(signals), policy);
      var now := tables.Now();
      var telemetry := BuildTelemetry(submission.execution, submission.durationMs, gate.decision, now);
      var found := Settle(id, gate.decision, submission);
      if !found {
        return Some(Persistence);
      }
      Record(id, gate, submission, telemetry, revisionCount, recordReviewRequest);
      return None;
    }

    // What `process_candidate` writes after the assessment is settled.
    method Record(id: AssessmentId, gate: GateResult, submission: Submission, started: Telemetry, revisionCount: nat,
                  recordReviewRequest: bool)
      modifies tables
      ensures tables.View(id) == RecordGated(old(tables.View(id)), tables.clock, policy, gate, submission, started,
                                             revisionCount, recordReviewRequest)
      ensures tables.OthersKept(id) && old(tables.readings) <= tables.readings
    {
      hide EventsOf, SettledEvent;
      var now := tables.Now();
      var telemetry := AppendEvent(started, SettledEvent(gate.decision, now));
      var status := if gate.decision == RequireHumanReview then Awaiting else NotRequired;
      tables.SaveState(id, gate, status, Some(submission.result), Some(submission.execution), telemetry, revisionCount,
                       policy.maxHumanRevisions);
      if status == Awaiting && recordReviewRequest {
        tables.AddReviewEvent(id, Requested, NotRequired, Awaiting, NOBODY, gate.reasonCodes, revisionCount);
      }
    }

    // The branch on the gate's decision.
    method Settle(id: AssessmentId, decision: Decision, submission: Submission) returns (found: bool)
      modifies tables`assessments, tables`readings
      ensures found == (id in old(tables.assessments))
      ensures found ==> (tables.View(id) == SetAssessment(
        old(tables.View(id)), Settled(old(tables.assessments[id]), decision, submission, tables.clock(old(tables.readings)))))
      ensures found ==> tables.readings == old(tables.readings) + 1
      ensures !found ==> unchanged(tables)
      ensures tables.OthersKept(id)
    {
      hide EventsOf, AsPendingReview, AsFailed, AsCompleted;
      if decision == RequireHumanReview {
        found := tables.MarkPendingReview(id, Some(submission.execution));
      } else if decision == BlockAndEscalate {
        found := tables.MarkFailed(id, GATE_BLOCKED, GATE_MESSAGE);
      } else {
        found := tables.MarkCompleted(id, submission.result, Some(submission.execution));
      }
    }

    // The second checkpoint of a resumed revision.
    method SaveResumed(id: AssessmentId, state: Checkpoint)
      requires id in tables.checkpoints
      modifies tables
      ensures tables.View(id) == FinishResume(old(tables.View(id)), state, tables.clock)
      ensures tables.OthersKept(id) && old(tables.readings) <= tables.readings
    {
      hide EventsOf, MergedTelemetry;
      var renewed := tables.checkpoints[id];
      var resumedAt := tables.Now();
      var merged := MergedTelemetry(state, renewed, resumedAt);
      tables.SaveState(id, renewed.gate, renewed.reviewStatus, renewed.candidate, renewed.execution, merged,
                       renewed.revisionCount, renewed.maxRevisions);
      tables.AddReviewEvent(id, RevisionSubmission, RevisionWanted, renewed.reviewStatus, NOBODY, renewed.gate.reasonCodes,
                            state.revisionCount);
    }

    method ResumeRevision(id: AssessmentId, submission: Submission) returns (failure: Option<GovernanceError>)
      requires Valid()
      modifies tables
      ensures Valid()
      ensures Performed(id, Action.Resume(submission), failure)
    {
      hide AllSafe, EventsOf, Inv, Rising, DeriveSignals, Gate.Result, Settled, SettledEvent, BuildTelemetry, FinishResume;
      ghost var was := Snapshot();
      var state := RequiredState(id);
      if state.Err? {
        failure := Some(state.error);
      } else if state.value.reviewStatus != RevisionWanted {
        failure := Some(InvalidReviewTransition);
      } else {
        failure := ProcessCandidate(id, submission, signals => signals, state.value.revisionCount, false);
        assert failure.None?;
        SaveResumed(id, state.value);
      }
      PerformedIsValid(was, id, Action.Resume(submission));
    }

    // ---- `generate_assessment`, commit by commit ----

    method CreateAssessment(id: AssessmentId)
      requires Valid() && id !in tables.assessments
      modifies tables
      ensures Valid() && Performed(id, Create, None)
    {
      hide AllSafe, EventsOf, Inv, Rising;
      ghost var was := Snapshot();
      tables.Create(id);
      PerformedIsValid(was, id, Create);
    }

    method BeginProcessing(id: AssessmentId)
      requires Valid() && InStatus(tables.View(id), Pending)
      modifies tables
      ensures Valid() && Performed(id, Begin, None)
    {
      hide AllSafe, EventsOf, Inv, Rising;
      ghost var was := Snapshot();
      var found := tables.MarkProcessing(id);
      assert found;
      PerformedIsValid(was, id, Begin);
    }

    method FinishProcessing(id: AssessmentId, generation: Generation)
      requires Valid() && InStatus(tables.View(id), Processing)
      modifies tables
      ensures Valid() && Performed(id, LastAction(generation), None)
    {
      hide AllSafe, EventsOf, Inv, Rising, Governance.ProcessCandidate;
      ghost var was := Snapshot();
      match generation {
        case Generated(submission) =>
          CandidateIsTaken(id, submission);
          var failure := ProcessCandidate(id, submission, signals => signals, 0, true);
          assert failure.None?;
        case Raised(code, message) =>
          var found := tables.MarkFailed(id, code, message);
          assert found;
      }
      PerformedIsValid(was, id, LastAction(generation));
    }

    lemma CandidateIsTaken(id: AssessmentId, submission: Submission)
      requires id in tables.assessments
      ensures Governance.ProcessCandidate(tables.View(id), tables.clock, policy, submission, signals => signals, 0, true).Ok?
    {
    }

    /** A new assessment is created, processed and finished; no step of the three can be out of order. */
    method GenerateAssessment(id: AssessmentId, generation: Generation)
      requires Valid() && id !in tables.assessments
      modifies tables
      ensures Valid() && tables.OthersKept(id)
      ensures var created := Step(old(tables.View(id)), Create, policy, tables.clock);
        created.Ok? &&
        var begun := Step(created.value, Begin, policy, tables.clock);
        begun.Ok? && Step(begun.value, LastAction(generation), policy, tables.clock) == Ok(tables.View(id))
    {
      hide AllSafe, EventsOf, Inv, Rising, Governance.ProcessCandidate;
      CreateAssessment(id);
      BeginProcessing(id);
      FinishProcessing(id, generation);
    }
  }
}
