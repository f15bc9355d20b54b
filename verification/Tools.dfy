/**
  The tool registry: validation of a requested call, the per-run cache keyed by the call's fingerprint, the permissions
  layered over it, and how an agent's run accumulates what the tools return.
*/
module Tools {
  import opened Collections
  import opened Wrappers

  // Argument values as their JSON texts.
  type Arguments = map<string, string>

  datatype Call = Call(tool: string, arguments: Arguments)

  datatype Evidence = Evidence(chunkId: nat, documentId: nat, content: string)

  datatype Document = Document(documentId: nat, title: string)

  datatype ToolResult = ToolResult(
    tool: string, success: bool, summary: string, evidence: seq<Evidence>, document: Option<Document>,
    errorCode: Option<string>, cached: bool)

  // How a handler ends: with a result, past its time limit, with an application error, or with any other exception.
  datatype Ending = Returned(result: ToolResult) | TimedOut | Refused(code: string, message: string) | Crashed

  /**
    The registered tools. `validate` gives the arguments as the tool's schema normalises them; `handle` may behave
    differently at each of the process's handler runs.
  */
  datatype Toolbox = Toolbox(
    names: set<string>, validate: Call -> Option<Arguments>, handle: (Call, nat) -> Ending, fingerprint: Call -> string)

  type Entries = map<string, ToolResult>

  // One executed call: what is returned, the cache afterwards (if there is one), and all handler runs so far.
  datatype Executed = Executed(
    result: ToolResult, fingerprint: string, keys: set<string>, cache: Option<Entries>, ran: seq<Call>)

  function Failure(tool: string, summary: string, code: string): ToolResult {
    ToolResult(tool, false, summary, [], None, Some(code), false)
  }

  function ResultOf(tool: string, ending: Ending): ToolResult {
    match ending
    case Returned(result) => result
    case TimedOut => Failure(tool, "The approved tool exceeded its configured time limit.", "tool_timeout")
    case Refused(code, message) => Failure(tool, message, code)
    case Crashed => Failure(tool, "The approved tool could not complete the request.", "tool_execution_error")
  }

  const UNKNOWN := "Requested tool is not in the approved tool registry."
  const INVALID := "Tool arguments did not match the approved schema."
  const UNAUTHORIZED := "The specialist is not authorized to use the requested tool."

  // The call as its handler sees it, when it gets that far.
  function Normalized(box: Toolbox, call: Call): Option<Call> {
    if call.tool !in box.names then None
    else
      match box.validate(call)
      case None => None
      case Some(arguments) => Some(Call(call.tool, arguments))
  }

  function ExecuteCall(box: Toolbox, call: Call, cache: Option<Entries>, ran: seq<Call>): Executed {
    var keys := call.arguments.Keys;
    match Normalized(box, call)
    case None =>
      var failure := if call.tool !in box.names then Failure(call.tool, UNKNOWN, "unknown_tool")
                     else Failure(call.tool, INVALID, "invalid_tool_arguments");
      Executed(failure, box.fingerprint(call), keys, cache, ran)
    case Some(valid) =>
      var fingerprint := box.fingerprint(valid);
      if cache.Some? && fingerprint in cache.value then
        Executed(cache.value[fingerprint].(cached := true), fingerprint, keys, cache, ran)
      else
        var result := ResultOf(call.tool, box.handle(valid, |ran|));
        var stored := match cache case None => None case Some(entries) => Some(entries[fingerprint := result]);
        Executed(result, fingerprint, keys, stored, ran + [valid])
  }

  // ---- The registry object ----

  // A dictionary the caller hands in and the registry fills.
  class ToolCache {
    var entries: Entries

    constructor (entries: Entries)
      ensures this.entries == entries
    {
      this.entries := entries;
    }
  }

  class ToolRegistry {
    const box: Toolbox
    // The recorded handler runs and timeouts.
    var ran: seq<Call>
    var timeouts: nat

    constructor (box: Toolbox)
      ensures this.box == box && ran == [] && timeouts == 0
    {
      this.box := box;
      ran, timeouts := [], 0;
    }

    // One handler run, its exceptions turned into failure results.
    method RunHandler(valid: Call) returns (result: ToolResult)
      modifies this
      ensures result == ResultOf(valid.tool, box.handle(valid, |old(ran)|)) && ran == old(ran) + [valid]
      ensures timeouts == old(timeouts) + if box.handle(valid, |old(ran)|).TimedOut? then 1 else 0
    {
      match box.handle(valid, |ran|) {
        case Returned(returned) => result := returned;
        case TimedOut =>
          timeouts := timeouts + 1;
          result := Failure(valid.tool, "The approved tool exceeded its configured time limit.", "tool_timeout");
        case Refused(code, message) => result := Failure(valid.tool, message, code);
        case Crashed =>
          result := Failure(valid.tool, "The approved tool could not complete the request.", "tool_execution_error");
      }
      ran := ran + [valid];
    }

    method Execute(call: Call, cache: ToolCache?) returns (result: ToolResult, fingerprint: string, keys: set<string>)
      modifies this, if cache == null then {} else {cache}
      ensures Executed(result, fingerprint, keys, if cache == null then None else Some(cache.entries), ran)
           == ExecuteCall(box, call, if cache == null then None else Some(old(cache.entries)), old(ran))
      ensures old(timeouts) <= timeouts <= old(timeouts) + (|ran| - |old(ran)|)
    {
      hide ResultOf;
      keys := call.arguments.Keys;
      if call.tool !in box.names {
        return Failure(call.tool, UNKNOWN, "unknown_tool"), box.fingerprint(call), keys;
      }
      var arguments := box.validate(call);
      if arguments.None? {
        return Failure(call.tool, INVALID, "invalid_tool_arguments"), box.fingerprint(call), keys;
      }
      var valid := Call(call.tool, arguments.value);
      fingerprint := box.fingerprint(valid);
      if cache != null && fingerprint in cache.entries {
        return cache.entries[fingerprint].(cached := true), fingerprint, keys;
      }
      result := RunHandler(valid);
      if cache != null {
        cache.entries := cache.entries[fingerprint := result];
      }
    }
  }

  // ---- Permissions ----

  datatype AgentName = EvidenceRole | ArchitectureRole | RiskGovernanceRole | SynthesisRole

  function Permitted(agent: AgentName): set<string> {
    if agent.EvidenceRole? then {"search_knowledge", "get_knowledge_document", "search_knowledge_graph"} else {}
  }

  // Refused calls carry a fingerprint of their own, which also covers the agent.
  function ExecuteAs(agent: AgentName, agentFingerprint: (AgentName, Call) -> string, box: Toolbox, call: Call,
                     cache: Option<Entries>, ran: seq<Call>): Executed
  {
    if call.tool !in Permitted(agent) then
      Executed(Failure(call.tool, UNAUTHORIZED, "unauthorized_tool"), agentFingerprint(agent, call), call.arguments.Keys,
               cache, ran)
    else ExecuteCall(box, call, cache, ran)
  }

  class AgentToolPermissions {
    const agentFingerprint: (AgentName, Call) -> string

    constructor (agentFingerprint: (AgentName, Call) -> string)
      ensures this.agentFingerprint == agentFingerprint
    {
      this.agentFingerprint := agentFingerprint;
    }

    method Execute(agent: AgentName, registry: ToolRegistry, call: Call, cache: ToolCache)
      returns (result: ToolResult, fingerprint: string, keys: set<string>)
      modifies registry, cache
      ensures Executed(result, fingerprint, keys, Some(cache.entries), registry.ran)
           == ExecuteAs(agent, agentFingerprint, registry.box, call, Some(old(cache.entries)), old(registry.ran))
    {
      if call.tool !in Permitted(agent) {
        return Failure(call.tool, UNAUTHORIZED, "unauthorized_tool"), agentFingerprint(agent, call), call.arguments.Keys;
      }
      result, fingerprint, keys := registry.Execute(call, cache);
    }
  }

  // ---- What a run has observed ----

  function ChunkIds(evidence: seq<Evidence>): seq<nat> {
    seq(|evidence|, i requires 0 <= i < |evidence| => evidence[i].chunkId)
  }

  function DocumentIds(documents: seq<Document>): seq<nat> {
    seq(|documents|, i requires 0 <= i < |documents| => documents[i].documentId)
  }

  // `setdefault` for each item in turn, on a dictionary listed in insertion order.
  function AddEvidence(held: seq<Evidence>, items: seq<Evidence>): seq<Evidence>
    decreases |items|
  {
    if items == [] then held
    else
      var before := AddEvidence(held, items[..|items| - 1]);
      var item := items[|items| - 1];
      if item.chunkId in ChunkIds(before) then before else before + [item]
  }

  function AddDocument(held: seq<Document>, document: Option<Document>): seq<Document> {
    if document.None? || document.value.documentId in DocumentIds(held) then held else held + [document.value]
  }

  // The same with the set of chunks seen so far, item by item.
  method MergeEvidence(held: seq<Evidence>, items: seq<Evidence>) returns (merged: seq<Evidence>)
    ensures merged == AddEvidence(held, items)
  {
    merged := held;
    var seen := set i | 0 <= i < |held| :: held[i].chunkId;
    forall id: nat ensures id in seen <==> id in ChunkIds(held) {
      if id in seen {
        var i :| 0 <= i < |held| && held[i].chunkId == id;
        assert ChunkIds(held)[i] == id;
      }
    }
    for k := 0 to |items|
      invariant merged == AddEvidence(held, items[..k])
      invariant forall id: nat :: id in seen <==> id in ChunkIds(merged)
    {
      assert items[..k + 1][..k] == items[..k];
      if items[k].chunkId !in seen {
        ChunkIdsAppend(merged, items[k]);
        merged := merged + [items[k]];
        seen := seen + {items[k].chunkId};
      }
    }
    assert items[..|items|] == items;
  }

  // A sequence of calls, each result observed.
  datatype Observed = Observed(
    results: seq<ToolResult>, evidence: seq<Evidence>, documents: seq<Document>, cache: Option<Entries>, ran: seq<Call>)

  function Observe(o: Observed, e: Executed): Observed {
    Observed(o.results + [e.result], AddEvidence(o.evidence, e.result.evidence), AddDocument(o.documents, e.result.document),
             e.cache, e.ran)
  }

  function RunCalls(box: Toolbox, calls: seq<Call>, cache: Option<Entries>): Observed {
    if calls == [] then Observed([], [], [], cache, [])
    else
      var before := RunCalls(box, calls[..|calls| - 1], cache);
      Observe(before, ExecuteCall(box, calls[|calls| - 1], before.cache, before.ran))
  }

  // ---- The cache refines uncached execution ----

  // Handlers whose behaviour depends on the call alone.
  ghost predicate DeterministicTools(box: Toolbox) {
    forall call, m: nat, n: nat :: box.handle(call, m) == box.handle(call, n)
  }

  ghost predicate DistinctFingerprints(box: Toolbox) {
    forall a, b :: box.fingerprint(a) == box.fingerprint(b) ==> a == b
  }

  predicate SameButForCached(a: ToolResult, b: ToolResult) {
    a.(cached := false) == b.(cached := false)
  }

  // Every entry is the result of a call that ran, and every call that ran has its entry.
  ghost predicate CacheHolds(box: Toolbox, entries: Entries, ran: seq<Call>) {
    && (forall call | call in ran :: box.fingerprint(call) in entries)
    && forall key | key in entries ::
         exists call :: call in ran && box.fingerprint(call) == key && entries[key] == ResultOf(call.tool, box.handle(call, 0))
  }

  lemma CacheHoldsAfter(box: Toolbox, call: Call, entries: Entries, ran: seq<Call>)
    requires DeterministicTools(box) && CacheHolds(box, entries, ran)
    ensures var e := ExecuteCall(box, call, Some(entries), ran); e.cache.Some? && CacheHolds(box, e.cache.value, e.ran)
  {
    var e := ExecuteCall(box, call, Some(entries), ran);
    var n := Normalized(box, call);
    if n.Some? && box.fingerprint(n.value) !in entries {
      var key := box.fingerprint(n.value);
      assert box.handle(n.value, |ran|) == box.handle(n.value, 0);
      forall k | k in e.cache.value
        ensures exists c :: c in e.ran && box.fingerprint(c) == k && e.cache.value[k] == ResultOf(c.tool, box.handle(c, 0))
      {
        if k == key {
          assert n.value in e.ran;
        } else {
          var c :| c in ran && box.fingerprint(c) == k && entries[k] == ResultOf(c.tool, box.handle(c, 0));
          assert c in e.ran;
        }
      }
    }
  }

  // One call: the cache changes at most the flag.
  lemma CachedCallAgrees(box: Toolbox, call: Call, entries: Entries, ran: seq<Call>, plain: seq<Call>)
    requires DeterministicTools(box) && DistinctFingerprints(box) && CacheHolds(box, entries, ran)
    ensures SameButForCached(ExecuteCall(box, call, Some(entries), ran).result, ExecuteCall(box, call, None, plain).result)
    ensures ExecuteCall(box, call, Some(entries), ran).fingerprint == ExecuteCall(box, call, None, plain).fingerprint
  {
    var n := Normalized(box, call);
    if n.Some? {
      assert box.handle(n.value, |plain|) == box.handle(n.value, 0) == box.handle(n.value, |ran|);
    }
  }

  /** With deterministic tools no sequence of calls can tell whether the cache is there, apart from the cached flag. */
  lemma {:induction false} CacheIsInvisible(box: Toolbox, calls: seq<Call>)
    requires DeterministicTools(box) && DistinctFingerprints(box)
    ensures var with, without := RunCalls(box, calls, Some(map[])), RunCalls(box, calls, None);
      && with.evidence == without.evidence && with.documents == without.documents
      && |with.results| == |without.results| == |calls|
      && (forall i | 0 <= i < |calls| :: SameButForCached(with.results[i], without.results[i]))
      && with.cache.Some? && without.cache.None? && CacheHolds(box, with.cache.value, with.ran)
  {
    if calls != [] {
      var init, last := calls[..|calls| - 1], calls[|calls| - 1];
      CacheIsInvisible(box, init);
      hide DeterministicTools, DistinctFingerprints, CacheHolds, AddEvidence, AddDocument;
      var with, without := RunCalls(box, init, Some(map[])), RunCalls(box, init, None);
      CachedCallAgrees(box, last, with.cache.value, with.ran, without.ran);
      CacheHoldsAfter(box, last, with.cache.value, with.ran);
    }
  }

  // The calls that reach a handler, normalised.
  function ValidCalls(box: Toolbox, calls: seq<Call>): seq<Call> {
    if calls == [] then []
    else
      ValidCalls(box, calls[..|calls| - 1])
      + match Normalized(box, calls[|calls| - 1]) case None => [] case Some(valid) => [valid]
  }

  /** Through the cache each valid call runs its handler exactly once, whatever the handlers do; without it, every time. */
  lemma {:induction false} HandlersRunOnce(box: Toolbox, calls: seq<Call>)
    requires DistinctFingerprints(box)
    ensures var with := RunCalls(box, calls, Some(map[]));
      && Distinct(with.ran) && (forall call :: call in with.ran <==> call in ValidCalls(box, calls))
      && with.cache.Some? && forall call :: call in with.ran <==> box.fingerprint(call) in with.cache.value
    ensures RunCalls(box, calls, None).ran == ValidCalls(box, calls) && RunCalls(box, calls, None).cache.None?
  {
    if calls != [] {
      var init, last := calls[..|calls| - 1], calls[|calls| - 1];
      HandlersRunOnce(box, init);
      hide AddEvidence, AddDocument;
      var n := Normalized(box, last);
      if n.Some? {
        assert ValidCalls(box, calls) == ValidCalls(box, init) + [n.value];
      } else {
        assert ValidCalls(box, calls) == ValidCalls(box, init) + [];
      }
    }
  }

  // ---- Observations ----

  lemma ChunkIdsAppend(evidence: seq<Evidence>, item: Evidence)
    ensures ChunkIds(evidence + [item]) == ChunkIds(evidence) + [item.chunkId]
  {
  }

  /** Accumulated evidence keeps what was held, holds every chunk returned, and each chunk once. */
  lemma {:induction false} EvidenceAccumulates(held: seq<Evidence>, items: seq<Evidence>)
    requires Distinct(ChunkIds(held))
    ensures var after := AddEvidence(held, items);
      && held <= after && Distinct(ChunkIds(after))
      && (forall item | item in items :: item.chunkId in ChunkIds(after))
      && (forall item | item in after :: item in held || item in items)
    decreases |items|
  {
    if items != [] {
      var init, last := items[..|items| - 1], items[|items| - 1];
      EvidenceAccumulates(held, init);
      var before := AddEvidence(held, init);
      ChunkIdsAppend(before, last);
      assert forall item | item in items :: item in init || item == last;
    }
  }

  /** Item by item: a chunk that is not held yet is appended, one that is held is dropped. */
  lemma EvidenceIsAppended(held: seq<Evidence>, first: seq<Evidence>, last: Evidence)
    ensures AddEvidence(held, []) == held
    ensures var before := AddEvidence(held, first);
      AddEvidence(held, first + [last]) ==
        before + if exists i | 0 <= i < |before| :: before[i].chunkId == last.chunkId then [] else [last]
  {
    assert (first + [last])[..|first|] == first;
    var before := AddEvidence(held, first);
    if i :| 0 <= i < |before| && before[i].chunkId == last.chunkId {
      assert ChunkIds(before)[i] == last.chunkId;
    } else {
      assert last.chunkId !in ChunkIds(before);
    }
  }

  /** A role's calls only ever reach the tools it may use. */
  lemma OnlyPermittedRun(agent: AgentName, agentFingerprint: (AgentName, Call) -> string, box: Toolbox, call: Call,
                         cache: Option<Entries>, ran: seq<Call>)
    ensures var e := ExecuteAs(agent, agentFingerprint, box, call, cache, ran);
      && ran <= e.ran && (forall i | |ran| <= i < |e.ran| :: e.ran[i].tool in Permitted(agent))
      && (call.tool !in Permitted(agent) ==> e.cache == cache && e.ran == ran && !e.result.success)
      && (agent != EvidenceRole ==> e.ran == ran && !e.result.success)
  {
  }

  // ---- What a call returns ----

  predicate IsFailure(result: ToolResult, tool: string, code: string) {
    && result.tool == tool && !result.success && result.errorCode == Some(code)
    && result.evidence == [] && result.document == None && !result.cached
  }

  /** A call of an unknown tool or with arguments its schema refuses runs nothing and says which of the two it is. */
  lemma RefusedCalls(box: Toolbox, call: Call, cache: Option<Entries>, ran: seq<Call>)
    requires call.tool in box.names ==> box.validate(call) == None
    ensures var e := ExecuteCall(box, call, cache, ran);
      && e.cache == cache && e.ran == ran && e.keys == call.arguments.Keys && e.fingerprint == box.fingerprint(call)
      && IsFailure(e.result, call.tool, if call.tool in box.names then "invalid_tool_arguments" else "unknown_tool")
  {
  }

  /** Any other call is answered by the cache, or by its handler's next run, whose result is stored as it is. */
  lemma AnsweredCalls(box: Toolbox, call: Call, cache: Option<Entries>, ran: seq<Call>)
    requires call.tool in box.names && box.validate(call).Some?
    ensures var e, valid := ExecuteCall(box, call, cache, ran), call.(arguments := box.validate(call).value);
      && e.keys == call.arguments.Keys && e.fingerprint == box.fingerprint(valid)
      && if cache.Some? && e.fingerprint in cache.value then
           && e.ran == ran && e.cache == cache && e.result.cached
           && e.result.(cached := cache.value[e.fingerprint].cached) == cache.value[e.fingerprint]
         else
           && e.ran == ran + [valid] && (cache == None ==> e.cache == None)
           && (cache.Some? ==> e.cache == Some(cache.value[e.fingerprint := e.result]))
           && match box.handle(valid, |ran|)
              case Returned(result) => e.result == result
              case TimedOut => IsFailure(e.result, call.tool, "tool_timeout")
              case Refused(code, message) => IsFailure(e.result, call.tool, code) && e.result.summary == message
              case Crashed => IsFailure(e.result, call.tool, "tool_execution_error")
  {
  }

  /** What a role may not use is refused before the registry sees it. */
  lemma UnauthorizedCalls(agent: AgentName, agentFingerprint: (AgentName, Call) -> string, box: Toolbox, call: Call,
                          cache: Option<Entries>, ran: seq<Call>)
    ensures var e := ExecuteAs(agent, agentFingerprint, box, call, cache, ran);
      if agent == EvidenceRole && call.tool in {"search_knowledge", "get_knowledge_document", "search_knowledge_graph"}
      then e == ExecuteCall(box, call, cache, ran)
      else
        && e.cache == cache && e.ran == ran && e.keys == call.arguments.Keys && e.fingerprint == agentFingerprint(agent, call)
        && IsFailure(e.result, call.tool, "unauthorized_tool")
  {
  }
}
