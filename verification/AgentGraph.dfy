/**
  The single-agent assessment graph: reason, execute a tool, synthesise or fail, under a step limit and a tool-call limit.
  The agent is any function of what it is shown; it may also raise.
*/
module AgentGraph {
  import opened Collections
  import opened Gate
  import opened Tools
  import opened Wrappers

  type Report = string

  datatype Decision = UseTool(call: Call) | Synthesize | GiveUp

  datatype HistoryEntry = HistoryEntry(
    step: nat, tool: string, success: bool, summary: string, keys: set<string>, fingerprint: string, cached: bool,
    errorCode: Option<string>)

  datatype GraphState = GraphState(
    evidence: seq<Evidence>, documents: seq<Document>, history: seq<HistoryEntry>, cache: Entries, pending: Option<Call>,
    nextAction: Decision, step: nat, maxSteps: nat, callsUsed: nat, maxCalls: nat, finalResult: Option<Report>,
    termination: Option<Termination>, error: Option<string>)

  // None stands for an exception.
  datatype Agent = Agent(
    decide: (seq<Evidence>, seq<Document>, seq<HistoryEntry>, nat) -> Option<Decision>,
    synthesize: (seq<Evidence>, seq<Document>) -> Option<Report>)

  function InitialState(maxSteps: nat, maxCalls: nat): GraphState {
    GraphState([], [], [], map[], None, Synthesize, 0, maxSteps, 0, maxCalls, None, None, None)
  }

  // ---- The nodes ----

  function ReasonNode(agent: Agent, s: GraphState): Option<GraphState> {
    if s.step >= s.maxSteps then Some(s.(nextAction := Synthesize, termination := Some(MaxStepsReached)))
    else if s.callsUsed >= s.maxCalls then Some(s.(nextAction := Synthesize, termination := Some(MaxToolCallsReached)))
    else
      match agent.decide(s.evidence, s.documents, s.history, s.step + 1)
      case None => None
      case Some(decision) =>
        var decided := s.(step := s.step + 1, nextAction := decision, pending := None);
        Some(match decision
             case UseTool(call) => decided.(pending := Some(call))
             case Synthesize => decided.(termination := Some(AgentStopped))
             case GiveUp => decided.(termination := Some(WorkFailed)))
  }

  function PendingCall(s: GraphState): Call {
    if s.pending.Some? then s.pending.value else Call("", map[])
  }

  // What the tool node records once the registry has answered.
  function ToolUpdate(s: GraphState, result: ToolResult, fingerprint: string, keys: set<string>, cache: Entries): GraphState {
    var entry := HistoryEntry(s.step, PendingCall(s).tool, result.success, result.summary, keys, fingerprint, result.cached,
                              result.errorCode);
    s.(evidence := AddEvidence(s.evidence, result.evidence), documents := AddDocument(s.documents, result.document),
       history := s.history + [entry], cache := cache, callsUsed := s.callsUsed + 1, pending := None)
  }

  function SynthesisNode(agent: Agent, s: GraphState): Option<GraphState> {
    match agent.synthesize(s.evidence, s.documents)
    case None => None
    case Some(report) =>
      Some(s.(finalResult := Some(report),
              termination := Some(if s.termination.Some? then s.termination.value else WorkCompleted)))
  }

  function FailNode(s: GraphState): GraphState {
    s.(error := Some("agent_terminated_without_result"), termination := Some(WorkFailed))
  }

  // ---- The edges ----

  datatype Node = Reasoning | ToolCall | Synthesis | Failing | End

  function RouteAfterReason(s: GraphState): Node {
    match s.nextAction
    case UseTool(_) => ToolCall
    case Synthesize => Synthesis
    case GiveUp => Failing
  }

  // Where the graph is, the handler runs so far, the calls requested in this run and the nodes executed.
  datatype Position = Position(node: Node, state: GraphState, ran: seq<Call>, calls: seq<Call>, visited: nat)

  function Begin(maxSteps: nat, maxCalls: nat, ran: seq<Call>): Position {
    Position(Reasoning, InitialState(maxSteps, maxCalls), ran, [], 0)
  }

  // One node; None when the agent raises in it.
  function Visit(agent: Agent, box: Toolbox, p: Position): Option<Position> {
    match p.node
    case Reasoning =>
      (match ReasonNode(agent, p.state)
       case None => None
       case Some(s) => Some(p.(node := RouteAfterReason(s), state := s, visited := p.visited + 1)))
    case ToolCall =>
      var e := ExecuteCall(box, PendingCall(p.state), Some(p.state.cache), p.ran);
      Some(Position(Reasoning, ToolUpdate(p.state, e.result, e.fingerprint, e.keys, e.cache.value), e.ran,
                    p.calls + [PendingCall(p.state)], p.visited + 1))
    case Synthesis =>
      (match SynthesisNode(agent, p.state)
       case None => None
       case Some(s) => Some(p.(node := End, state := s, visited := p.visited + 1)))
    case Failing => Some(p.(node := End, state := FailNode(p.state), visited := p.visited + 1))
    case End => Some(p)
  }

  // At most `nodes` further nodes.
  function Walk(agent: Agent, box: Toolbox, p: Position, nodes: nat): Option<Position>
    decreases nodes
  {
    if nodes == 0 || p.node == End then Some(p)
    else
      match Visit(agent, box, p)
      case None => None
      case Some(next) => Walk(agent, box, next, nodes - 1)
  }

  // ---- The bounds ----

  // How many nodes can still follow.
  function Rank(p: Position): int {
    var s := p.state;
    match p.node
    case Reasoning => 2 * Min(s.maxSteps - s.step, s.maxCalls - s.callsUsed) + 2
    case ToolCall => 2 * Min(s.maxSteps - s.step, s.maxCalls - s.callsUsed - 1) + 3
    case Synthesis => 1
    case Failing => 1
    case End => 0
  }

  // Why the run is about to be written up.
  predicate StoppedProperly(s: GraphState) {
    match s.termination
    case Some(MaxStepsReached) => s.step == s.maxSteps && s.callsUsed == s.step
    case Some(MaxToolCallsReached) => s.callsUsed == s.maxCalls && s.step == s.callsUsed < s.maxSteps
    case Some(AgentStopped) => s.step == s.callsUsed + 1 && s.callsUsed < s.maxCalls
    case _ => false
  }

  predicate OnTrack(p: Position, maxSteps: nat, maxCalls: nat) {
    var s := p.state;
    && s.maxSteps == maxSteps && s.maxCalls == maxCalls
    && |s.history| == s.callsUsed == |p.calls| <= s.maxCalls && s.callsUsed <= s.step <= s.maxSteps
    && p.visited + Rank(p) <= 2 * Min(maxSteps, maxCalls) + 2
    && match p.node
       case Reasoning => s.step == s.callsUsed && s.error.None? && s.finalResult.None?
       case ToolCall => s.step == s.callsUsed + 1 && s.pending.Some? && s.callsUsed < s.maxCalls
                        && s.error.None? && s.finalResult.None?
       case Synthesis => StoppedProperly(s) && s.error.None? && s.finalResult.None?
       case Failing => s.termination == Some(WorkFailed) && s.finalResult.None?
       case End => if s.error.Some? then s.finalResult.None? else s.finalResult.Some? && StoppedProperly(s)
  }

  lemma VisitStaysOnTrack(agent: Agent, box: Toolbox, p: Position, maxSteps: nat, maxCalls: nat)
    requires OnTrack(p, maxSteps, maxCalls) && p.node != End && Visit(agent, box, p).Some?
    ensures OnTrack(Visit(agent, box, p).value, maxSteps, maxCalls)
    ensures 0 <= Rank(Visit(agent, box, p).value) < Rank(p) && Visit(agent, box, p).value.visited == p.visited + 1
  {
    hide AddEvidence, AddDocument;
  }

  lemma StartsOnTrack(maxSteps: nat, maxCalls: nat, ran: seq<Call>)
    ensures OnTrack(Begin(maxSteps, maxCalls, ran), maxSteps, maxCalls)
  {
  }

  lemma OnTrackBounds(p: Position, maxSteps: nat, maxCalls: nat)
    requires OnTrack(p, maxSteps, maxCalls)
    ensures 0 <= Rank(p) && (p.node != End ==> Rank(p) > 0)
    ensures p.visited + Rank(p) <= 2 * Min(maxSteps, maxCalls) + 2 && p.state.callsUsed <= Min(maxSteps, maxCalls)
  {
  }

  /** From anywhere on track the graph ends, or the agent raises, within `Rank` nodes. */
  lemma {:induction false} WalkEnds(agent: Agent, box: Toolbox, p: Position, maxSteps: nat, maxCalls: nat, nodes: nat)
    requires OnTrack(p, maxSteps, maxCalls) && Rank(p) <= nodes
    ensures var end := Walk(agent, box, p, nodes);
      end.Some? ==> end.value.node == End && OnTrack(end.value, maxSteps, maxCalls)
    decreases nodes
  {
    if p.node != End && Visit(agent, box, p).Some? {
      VisitStaysOnTrack(agent, box, p, maxSteps, maxCalls);
      hide Visit;
      WalkEnds(agent, box, Visit(agent, box, p).value, maxSteps, maxCalls, nodes - 1);
    }
  }

  /**
    For every agent: at most 2 * min(max_steps, max_tool_calls) + 2 nodes run, one history entry per tool call, and a
    written-up run has a reason that was set before the synthesis.
  */
  lemma EveryRunEnds(agent: Agent, box: Toolbox, maxSteps: nat, maxCalls: nat, ran: seq<Call>)
    ensures var most := 2 * Min(maxSteps, maxCalls) + 2;
      var end := Walk(agent, box, Begin(maxSteps, maxCalls, ran), most);
      end.Some? ==>
        && end.value.node == End && end.value.visited <= most < 2 * maxSteps + 3
        && |end.value.state.history| == end.value.state.callsUsed <= Min(maxSteps, maxCalls)
        && (end.value.state.error.None? ==> end.value.state.finalResult.Some? && StoppedProperly(end.value.state))
  {
    hide Walk;
    WalkEnds(agent, box, Begin(maxSteps, maxCalls, ran), maxSteps, maxCalls, 2 * Min(maxSteps, maxCalls) + 2);
  }

  // ---- What a run has observed ----

  // The state's observations are those of its calls, executed in order through the cache.
  ghost predicate ObservesItsCalls(p: Position, box: Toolbox) {
    var o := RunCalls(box, p.calls, Some(map[]));
    && p.state.evidence == o.evidence && p.state.documents == o.documents && Some(p.state.cache) == o.cache && p.ran == o.ran
    && |p.state.history| == |o.results|
    && forall i | 0 <= i < |o.results| ::
         p.state.history[i].success == o.results[i].success && p.state.history[i].cached == o.results[i].cached
  }

  lemma VisitObserves(agent: Agent, box: Toolbox, p: Position)
    requires ObservesItsCalls(p, box) && Visit(agent, box, p).Some?
    ensures ObservesItsCalls(Visit(agent, box, p).value, box)
  {
    hide AddEvidence, AddDocument, RunCalls, ExecuteCall;
    if p.node == ToolCall {
      var o := RunCalls(box, p.calls, Some(map[]));
      var e := ExecuteCall(box, PendingCall(p.state), Some(p.state.cache), p.ran);
      CacheStays(box, PendingCall(p.state), p.state.cache, p.ran);
      RunCallsAppend(box, p.calls, PendingCall(p.state), Some(map[]));
      assert RunCalls(box, p.calls + [PendingCall(p.state)], Some(map[])) == Observe(o, e);
    }
  }

  lemma CacheStays(box: Toolbox, call: Call, entries: Entries, ran: seq<Call>)
    ensures ExecuteCall(box, call, Some(entries), ran).cache.Some?
  {
  }

  lemma RunCallsAppend(box: Toolbox, calls: seq<Call>, call: Call, cache: Option<Entries>)
    ensures var before := RunCalls(box, calls, cache);
      RunCalls(box, calls + [call], cache) == Observe(before, ExecuteCall(box, call, before.cache, before.ran))
  {
    hide AddEvidence, AddDocument, ExecuteCall;
    assert (calls + [call])[..|calls|] == calls;
  }

  lemma {:induction false} WalkObserves(agent: Agent, box: Toolbox, p: Position, nodes: nat)
    requires ObservesItsCalls(p, box)
    ensures var end := Walk(agent, box, p, nodes); end.Some? ==> ObservesItsCalls(end.value, box)
    decreases nodes
  {
    hide Visit, ObservesItsCalls;
    if nodes > 0 && p.node != End && Visit(agent, box, p).Some? {
      VisitObserves(agent, box, p);
      WalkObserves(agent, box, Visit(agent, box, p).value, nodes - 1);
    }
  }

  /**
    With deterministic tools a run holds exactly the evidence and documents that its calls return without any cache, and
    each distinct valid call ran its handler once.
  */
  lemma RunSeesUncachedEvidence(agent: Agent, box: Toolbox, maxSteps: nat, maxCalls: nat, nodes: nat)
    requires DeterministicTools(box) && DistinctFingerprints(box)
    ensures var end := Walk(agent, box, Begin(maxSteps, maxCalls, []), nodes);
      end.Some? ==>
        && end.value.state.evidence == RunCalls(box, end.value.calls, None).evidence
        && end.value.state.documents == RunCalls(box, end.value.calls, None).documents
        && Distinct(end.value.ran)
        && forall call :: call in end.value.ran <==> call in ValidCalls(box, end.value.calls)
  {
    hide Walk;
    WalkObserves(agent, box, Begin(maxSteps, maxCalls, []), nodes);
    var end := Walk(agent, box, Begin(maxSteps, maxCalls, []), nodes);
    if end.Some? {
      CacheIsInvisible(box, end.value.calls);
      HandlersRunOnce(box, end.value.calls);
    }
  }

  // ---- The run is the agent's ----

  // What the agent decides when it has seen the results of these calls.
  ghost function DecisionAfter(agent: Agent, box: Toolbox, calls: seq<Call>, history: seq<HistoryEntry>): Option<Decision> {
    var o := RunCalls(box, calls, Some(map[]));
    agent.decide(o.evidence, o.documents, history, |calls| + 1)
  }

  // The entry tells the agent about this call.
  ghost predicate Tells(box: Toolbox, entry: HistoryEntry, call: Call, result: ToolResult, number: nat) {
    && entry.step == number && entry.tool == call.tool && entry.keys == call.arguments.Keys
    && entry.success == result.success && entry.summary == result.summary && entry.cached == result.cached
    && entry.errorCode == result.errorCode
    && entry.fingerprint == box.fingerprint(
         if call.tool in box.names && box.validate(call).Some? then call.(arguments := box.validate(call).value) else call)
  }

  ghost predicate Decided(agent: Agent, box: Toolbox, calls: seq<Call>, history: seq<HistoryEntry>, i: nat)
    requires i < |calls| == |history|
  {
    DecisionAfter(agent, box, calls[..i], history[..i]) == Some(UseTool(calls[i]))
  }

  // Every call is what the agent wanted next, knowing the calls before it; so is the way the run stopped.
  ghost predicate FollowsAgent(agent: Agent, box: Toolbox, p: Position) {
    var s, o := p.state, RunCalls(box, p.calls, Some(map[]));
    && |s.history| == |p.calls| == |o.results|
    && (forall i | 0 <= i < |p.calls| :: Tells(box, s.history[i], p.calls[i], o.results[i], i + 1))
    && (forall i: nat | i < |p.calls| :: Decided(agent, box, p.calls, s.history, i))
    && (p.node == ToolCall ==> DecisionAfter(agent, box, p.calls, s.history) == Some(UseTool(PendingCall(s))))
    && (s.termination == Some(AgentStopped) ==> DecisionAfter(agent, box, p.calls, s.history) == Some(Synthesize))
    && (s.termination == Some(WorkFailed) ==> DecisionAfter(agent, box, p.calls, s.history) == Some(GiveUp))
    && (p.node == End ==>
          if s.error == None then s.finalResult.Some? && s.finalResult == agent.synthesize(o.evidence, o.documents)
          else s.error == Some("agent_terminated_without_result") && s.termination == Some(WorkFailed))
  }

  lemma CallIsTold(box: Toolbox, p: Position, result: ToolResult, fingerprint: string, keys: set<string>)
    requires var e := ExecuteCall(box, PendingCall(p.state), Some(p.state.cache), p.ran);
      e.result == result && e.fingerprint == fingerprint && e.keys == keys
    ensures Tells(box, HistoryEntry(p.state.step, PendingCall(p.state).tool, result.success, result.summary, keys, fingerprint,
                                    result.cached, result.errorCode), PendingCall(p.state), result, p.state.step)
  {
  }

  lemma {:induction false} ResultsCount(box: Toolbox, calls: seq<Call>, cache: Option<Entries>)
    ensures |RunCalls(box, calls, cache).results| == |calls|
  {
    hide ExecuteCall, AddEvidence, AddDocument;
    if calls != [] {
      ResultsCount(box, calls[..|calls| - 1], cache);
    }
  }

  lemma ToolCallFollows(agent: Agent, box: Toolbox, p: Position, maxSteps: nat, maxCalls: nat)
    requires p.node == ToolCall && OnTrack(p, maxSteps, maxCalls) && ObservesItsCalls(p, box) && FollowsAgent(agent, box, p)
    ensures Visit(agent, box, p).Some? && FollowsAgent(agent, box, Visit(agent, box, p).value)
  {
    hide AddEvidence, AddDocument, RunCalls, ExecuteCall, Tells, DecisionAfter, Rank;
    var call, o := PendingCall(p.state), RunCalls(box, p.calls, Some(map[]));
    var e := ExecuteCall(box, call, Some(p.state.cache), p.ran);
    CacheStays(box, call, p.state.cache, p.ran);
    var next := Visit(agent, box, p).value;
    RunCallsAppend(box, p.calls, call, Some(map[]));
    CallIsTold(box, p, e.result, e.fingerprint, e.keys);
    var n := |p.calls|;
    forall i: nat | i < |next.calls| ensures Decided(agent, box, next.calls, next.state.history, i) {
      assert next.calls[..i] == p.calls[..i] && next.state.history[..i] == p.state.history[..i];
      if i < n {
        assert Decided(agent, box, p.calls, p.state.history, i);
      } else {
        assert p.calls[..n] == p.calls && p.state.history[..n] == p.state.history;
      }
    }
  }

  lemma VisitFollows(agent: Agent, box: Toolbox, p: Position, maxSteps: nat, maxCalls: nat)
    requires OnTrack(p, maxSteps, maxCalls) && ObservesItsCalls(p, box) && FollowsAgent(agent, box, p)
    requires Visit(agent, box, p).Some?
    ensures FollowsAgent(agent, box, Visit(agent, box, p).value)
  {
    hide RunCalls, Tells, Rank, Decided;
    if p.node == ToolCall {
      ToolCallFollows(agent, box, p, maxSteps, maxCalls);
    }
  }

  lemma {:induction false} WalkFollows(agent: Agent, box: Toolbox, p: Position, maxSteps: nat, maxCalls: nat, nodes: nat)
    requires OnTrack(p, maxSteps, maxCalls) && ObservesItsCalls(p, box) && FollowsAgent(agent, box, p)
    ensures var end := Walk(agent, box, p, nodes); end.Some? ==> FollowsAgent(agent, box, end.value)
    decreases nodes
  {
    hide Visit, OnTrack, ObservesItsCalls, FollowsAgent;
    if nodes > 0 && p.node != End && Visit(agent, box, p).Some? {
      VisitStaysOnTrack(agent, box, p, maxSteps, maxCalls);
      VisitObserves(agent, box, p);
      VisitFollows(agent, box, p, maxSteps, maxCalls);
      WalkFollows(agent, box, Visit(agent, box, p).value, maxSteps, maxCalls, nodes - 1);
    }
  }

  /**
    The run is the agent's own: each call is the one it asks for after being told of all calls before it, and the report
    is what it writes from everything they returned.
  */
  lemma RunFollowsTheAgent(agent: Agent, box: Toolbox, maxSteps: nat, maxCalls: nat, nodes: nat)
    ensures var end := Walk(agent, box, Begin(maxSteps, maxCalls, []), nodes); end.Some? ==> FollowsAgent(agent, box, end.value)
  {
    hide Walk;
    StartsOnTrack(maxSteps, maxCalls, []);
    WalkFollows(agent, box, Begin(maxSteps, maxCalls, []), maxSteps, maxCalls, nodes);
  }

  // ---- The workflow object ----

  datatype RunError = InvalidLimits | RecursionLimitHit | AgentRaised | GenerationFailed

  datatype AgentRun = AgentRun(report: Report, evidence: seq<Evidence>, stepsUsed: nat, termination: Termination)

  // What the workflow accepts of a final state.
  function Accept(s: GraphState): Result<AgentRun, RunError> {
    if s.finalResult.None? || s.termination.None? || s.error.Some? then Err(GenerationFailed)
    else Ok(AgentRun(s.finalResult.value, s.evidence, s.step, s.termination.value))
  }

  /** An accepted run says why it stopped; the fallback reason of the synthesis node never shows. */
  lemma AcceptedRuns(p: Position, maxSteps: nat, maxCalls: nat)
    requires OnTrack(p, maxSteps, maxCalls) && p.node == End
    ensures Accept(p.state).Ok? <==> p.state.error.None?
    ensures match Accept(p.state)
      case Err(e) => e == GenerationFailed
      case Ok(run) =>
        && run.stepsUsed <= maxSteps && run.termination in {MaxStepsReached, MaxToolCallsReached, AgentStopped}
        && (run.termination == MaxStepsReached ==> run.stepsUsed == maxSteps == p.state.callsUsed)
        && (run.termination == MaxToolCallsReached ==> run.stepsUsed == maxCalls == p.state.callsUsed < maxSteps)
        && (run.termination == AgentStopped ==> run.stepsUsed == p.state.callsUsed + 1 && p.state.callsUsed < maxCalls)
  {
  }

  class AgenticAssessmentWorkflow {
    const agent: Agent
    const tools: ToolRegistry
    const maxSteps: int
    const maxToolCalls: int
    const recursionLimit: nat

    constructor (agent: Agent, tools: ToolRegistry, maxSteps: int, maxToolCalls: int, recursionLimit: nat)
      ensures this.agent == agent && this.tools == tools && this.recursionLimit == recursionLimit
      ensures this.maxSteps == maxSteps && this.maxToolCalls == maxToolCalls
    {
      this.agent, this.tools, this.recursionLimit := agent, tools, recursionLimit;
      this.maxSteps, this.maxToolCalls := maxSteps, maxToolCalls;
    }

    /**
      Runs the graph. A recursion limit of 2 * max_steps + 3, the least the settings admit, is never hit.
    */
    method Run() returns (outcome: Result<AgentRun, RunError>)
      modifies tools
      ensures maxSteps < 1 || maxToolCalls < 1 ==> outcome == Err(InvalidLimits) && unchanged(tools)
      ensures maxSteps >= 1 && maxToolCalls >= 1 ==>
                && |tools.ran| <= |old(tools.ran)| + Min(maxSteps, maxToolCalls)
                && (outcome == Err(RecursionLimitHit) ==> recursionLimit < 2 * Min(maxSteps, maxToolCalls) + 2 < 2 * maxSteps + 3)
                && Invoked(old(tools.ran), outcome, tools.ran)
    {
      if maxSteps < 1 || maxToolCalls < 1 {
        return Err(InvalidLimits);
      }
      outcome := Invoke();
    }

    // The outcome is that of walking the graph for as many nodes as the limit allows.
    ghost predicate Invoked(before: seq<Call>, outcome: Result<AgentRun, RunError>, after: seq<Call>)
      requires maxSteps >= 1 && maxToolCalls >= 1
    {
      match Walk(agent, tools.box, Begin(maxSteps, maxToolCalls, before), recursionLimit)
      case None => outcome == Err(AgentRaised)
      case Some(end) => after == end.ran && outcome == if end.node == End then Accept(end.state) else Err(RecursionLimitHit)
    }

    method Invoke() returns (outcome: Result<AgentRun, RunError>)
      requires maxSteps >= 1 && maxToolCalls >= 1
      modifies tools
      ensures |tools.ran| <= |old(tools.ran)| + Min(maxSteps, maxToolCalls)
      ensures outcome == Err(RecursionLimitHit) ==> recursionLimit < 2 * Min(maxSteps, maxToolCalls) + 2
      ensures Invoked(old(tools.ran), outcome, tools.ran)
    {
      hide Visit, Walk, Rank, OnTrack, Accept, StoppedProperly;
      StartsOnTrack(maxSteps, maxToolCalls, tools.ran);
      var p := Begin(maxSteps, maxToolCalls, tools.ran);
      ghost var start := p;
      while p.node != End
        invariant OnTrack(p, maxSteps, maxToolCalls) && p.ran == tools.ran && p.visited <= recursionLimit
        invariant Walk(agent, tools.box, start, recursionLimit) == Walk(agent, tools.box, p, recursionLimit - p.visited)
        invariant |tools.ran| <= |old(tools.ran)| + p.state.callsUsed <= |old(tools.ran)| + Min(maxSteps, maxToolCalls)
        decreases Rank(p)
      {
        OnTrackBounds(p, maxSteps, maxToolCalls);
        WalkUnfolds(p, recursionLimit - p.visited);
        if p.visited >= recursionLimit {
          return Err(RecursionLimitHit);
        }
        var next := VisitNode(p);
        if next.None? {
          return Err(AgentRaised);
        }
        VisitStaysOnTrack(agent, tools.box, p, maxSteps, maxToolCalls);
        OnTrackBounds(next.value, maxSteps, maxToolCalls);
        CallsGrow(p);
        p := next.value;
      }
      WalkUnfolds(p, recursionLimit - p.visited);
      AcceptedRuns(p, maxSteps, maxToolCalls);
      return Accept(p.state);
    }

    lemma WalkUnfolds(p: Position, nodes: nat)
      ensures Walk(agent, tools.box, p, nodes) ==
        if nodes == 0 || p.node == End then Some(p)
        else match Visit(agent, tools.box, p) case None => None case Some(next) => Walk(agent, tools.box, next, nodes - 1)
    {
      hide Visit;
    }

    // A node runs at most one handler, and only the tool node counts a call.
    lemma CallsGrow(p: Position)
      requires Visit(agent, tools.box, p).Some?
      ensures var next := Visit(agent, tools.box, p).value;
        |next.ran| - |p.ran| <= next.state.callsUsed - p.state.callsUsed
    {
      hide AddEvidence, AddDocument;
    }

    // The tool node works on a copy of the cache.
    method VisitNode(p: Position) returns (next: Option<Position>)
      requires p.ran == tools.ran
      modifies tools
      ensures next == Visit(agent, tools.box, p)
      ensures next.Some? ==> tools.ran == next.value.ran
      ensures next.None? ==> tools.ran == old(tools.ran)
    {
      hide AddEvidence, AddDocument;
      if p.node == ToolCall {
        var cache := new ToolCache(p.state.cache);
        var result, fingerprint, keys := tools.Execute(PendingCall(p.state), cache);
        var evidence := MergeEvidence(p.state.evidence, result.evidence);
        var entry := HistoryEntry(p.state.step, PendingCall(p.state).tool, result.success, result.summary, keys, fingerprint,
                                  result.cached, result.errorCode);
        var state := p.state.(
          evidence := evidence, documents := AddDocument(p.state.documents, result.document),
          history := p.state.history + [entry], cache := cache.entries, callsUsed := p.state.callsUsed + 1, pending := None);
        next := Some(Position(Reasoning, state, tools.ran, p.calls + [PendingCall(p.state)], p.visited + 1));
      } else {
        next := Visit(agent, tools.box, p);
      }
    }
  }
}
