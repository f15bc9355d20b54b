/**
  The Evidence Agent: a bounded loop of at most one tool call per step, and a brief that may only cite what was observed.
*/
module EvidenceAgent {
  import opened AgentGraph
  import opened Collections
  import opened Gate
  import opened Tools
  import opened Wrappers

  // What the model answers when asked for the next call.
  datatype Choice = Ask(call: Call) | Stop

  datatype EvidenceItem = EvidenceItem(
    claim: string, documentIds: seq<nat>, chunkIds: seq<nat>, relevance: string, notes: Option<string>)

  // The retrieved identifiers are sets: their order is that of their texts.
  datatype Brief = Brief(summary: string, items: seq<EvidenceItem>, documentIds: set<nat>, chunkIds: set<nat>)

  // None stands for an exception.
  datatype Model = Model(
    choose: (seq<Evidence>, seq<Document>, seq<HistoryEntry>, nat) -> Option<Choice>,
    brief: (seq<Evidence>, seq<Document>) -> Option<Brief>)

  datatype Gathering = Gathering(
    evidence: seq<Evidence>, documents: seq<Document>, history: seq<HistoryEntry>, cache: Entries, ran: seq<Call>)

  datatype Stopped = Stopped(gathered: Gathering, stepsUsed: nat, termination: Termination)

  datatype Outcome = Outcome(
    brief: Brief, evidence: seq<Evidence>, documents: seq<Document>, history: seq<HistoryEntry>, stepsUsed: nat,
    termination: Termination)

  // ---- Merging a result ----

  // The items whose chunk is not among `known`.
  function NewItems(known: set<nat>, items: seq<Evidence>): seq<Evidence> {
    if items == [] then []
    else
      NewItems(known, items[..|items| - 1])
      + if items[|items| - 1].chunkId in known then [] else [items[|items| - 1]]
  }

  function Known(evidence: seq<Evidence>): set<nat> {
    set i | 0 <= i < |evidence| :: evidence[i].chunkId
  }

  // Only evidence held before the call is looked at, not the result's own earlier items.
  function Merged(held: seq<Evidence>, items: seq<Evidence>): seq<Evidence> {
    held + NewItems(Known(held), items)
  }

  method MergeObservations(held: seq<Evidence>, documents: seq<Document>, result: ToolResult)
    returns (merged: seq<Evidence>, known: seq<Document>)
    ensures merged == Merged(held, result.evidence) && known == AddDocument(documents, result.document)
  {
    var existing := Known(held);
    var items := result.evidence;
    merged := held;
    for k := 0 to |items|
      invariant merged == held + NewItems(existing, items[..k])
    {
      assert items[..k + 1][..k] == items[..k];
      if items[k].chunkId !in existing {
        merged := merged + [items[k]];
      }
    }
    assert items[..|items|] == items;
    known := documents;
    if result.document.Some? && forall i | 0 <= i < |documents| :: documents[i].documentId != result.document.value.documentId {
      assert result.document.value.documentId !in DocumentIds(documents);
      known := known + [result.document.value];
    } else if result.document.Some? {
      var i :| 0 <= i < |documents| && documents[i].documentId == result.document.value.documentId;
      assert DocumentIds(documents)[i] == result.document.value.documentId;
    }
  }

  // ---- The loop ----

  function TakeCall(box: Toolbox, agentFingerprint: (AgentName, Call) -> string, g: Gathering, step: nat, call: Call): Gathering {
    var e := ExecuteAs(EvidenceRole, agentFingerprint, box, call, Some(g.cache), g.ran);
    var entry := HistoryEntry(step, call.tool, e.result.success, e.result.summary, e.keys, e.fingerprint, e.result.cached,
                              e.result.errorCode);
    Gathering(Merged(g.evidence, e.result.evidence), AddDocument(g.documents, e.result.document), g.history + [entry],
              match e.cache case Some(entries) => entries case None => g.cache, e.ran)
  }

  // The loop from step `step` on; None when the model raises.
  function GatherFrom(model: Model, box: Toolbox, agentFingerprint: (AgentName, Call) -> string, maxSteps: nat, maxCalls: nat,
                      g: Gathering, step: nat): Option<Stopped>
    requires 1 <= step
    decreases maxSteps + 1 - step
  {
    if step > maxSteps then Some(Stopped(g, step - 1, MaxStepsReached))
    else if |g.history| >= maxCalls then Some(Stopped(g, step - 1, MaxToolCallsReached))
    else
      match model.choose(g.evidence, g.documents, g.history, step)
      case None => None
      case Some(Stop) => Some(Stopped(g, step, AgentStopped))
      case Some(Ask(call)) =>
        GatherFrom(model, box, agentFingerprint, maxSteps, maxCalls, TakeCall(box, agentFingerprint, g, step, call), step + 1)
  }

  // Every tool that ran from position `from` on is one of the three evidence tools.
  predicate OnlyEvidenceTools(ran: seq<Call>, from: nat) {
    forall i | from <= i < |ran| :: ran[i].tool in Permitted(EvidenceRole)
  }

  predicate Bounded(end: Stopped, maxSteps: nat, maxCalls: nat, from: nat) {
    var calls := |end.gathered.history|;
    && calls <= Min(maxSteps, maxCalls)
    && OnlyEvidenceTools(end.gathered.ran, from) && |end.gathered.ran| <= from + calls
    && match end.termination
       case MaxStepsReached => end.stepsUsed == maxSteps == calls
       case MaxToolCallsReached => end.stepsUsed == maxCalls == calls && calls < maxSteps
       case AgentStopped => end.stepsUsed == calls + 1 <= maxSteps
       case _ => false
  }

  /** At most min(max_steps, max_tool_calls) calls, and the reason says exactly which limit ended the loop. */
  lemma {:induction false} GatherIsBounded(model: Model, box: Toolbox, agentFingerprint: (AgentName, Call) -> string,
                                           maxSteps: nat, maxCalls: nat, g: Gathering, step: nat, from: nat)
    requires 1 <= step <= maxSteps + 1 && |g.history| == step - 1 <= maxCalls && OnlyEvidenceTools(g.ran, from)
    requires from <= |g.ran| <= from + |g.history|
    ensures match GatherFrom(model, box, agentFingerprint, maxSteps, maxCalls, g, step)
      case None => true
      case Some(end) => g.history <= end.gathered.history && Bounded(end, maxSteps, maxCalls, from)
    decreases maxSteps + 1 - step
  {
    hide TakeCall, OnlyEvidenceTools;
    if step <= maxSteps && |g.history| < maxCalls {
      var choice := model.choose(g.evidence, g.documents, g.history, step);
      if choice.Some? && choice.value.Ask? {
        CallStaysPermitted(box, agentFingerprint, g, step, choice.value.call, from);
        GatherIsBounded(model, box, agentFingerprint, maxSteps, maxCalls,
                        TakeCall(box, agentFingerprint, g, step, choice.value.call), step + 1, from);
      }
    }
  }

  lemma CallStaysPermitted(box: Toolbox, agentFingerprint: (AgentName, Call) -> string, g: Gathering, step: nat, call: Call,
                           from: nat)
    requires OnlyEvidenceTools(g.ran, from) && from <= |g.ran| <= from + |g.history|
    ensures var after := TakeCall(box, agentFingerprint, g, step, call);
      && OnlyEvidenceTools(after.ran, from) && g.history < after.history && |after.history| == |g.history| + 1
      && from <= |after.ran| <= from + |after.history|
  {
    hide Merged, AddDocument;
    OnlyPermittedRun(EvidenceRole, agentFingerprint, box, call, Some(g.cache), g.ran);
    OneRunPerCall(EvidenceRole, agentFingerprint, box, call, Some(g.cache), g.ran);
  }

  lemma OneRunPerCall(agent: AgentName, agentFingerprint: (AgentName, Call) -> string, box: Toolbox, call: Call,
                      cache: Option<Entries>, ran: seq<Call>)
    ensures |ExecuteAs(agent, agentFingerprint, box, call, cache, ran).ran| <= |ran| + 1
  {
  }

  // ---- The brief ----

  predicate Cites(item: EvidenceItem, documentIds: set<nat>, chunkIds: set<nat>) {
    (exists id :: id in item.documentIds && id in documentIds) || (exists id :: id in item.chunkIds && id in chunkIds)
  }

  function Allowed(ids: seq<nat>, allowed: set<nat>): seq<nat> {
    if ids == [] then []
    else
      Allowed(ids[..|ids| - 1], allowed) + if ids[|ids| - 1] in allowed then [ids[|ids| - 1]] else []
  }

  function SanitizedItems(items: seq<EvidenceItem>, documentIds: set<nat>, chunkIds: set<nat>): seq<EvidenceItem> {
    if items == [] then []
    else
      var last := items[|items| - 1];
      SanitizedItems(items[..|items| - 1], documentIds, chunkIds)
      + if Cites(last, documentIds, chunkIds)
        then [last.(documentIds := Allowed(last.documentIds, documentIds), chunkIds := Allowed(last.chunkIds, chunkIds))]
        else []
  }

  function DocumentsSeen(evidence: seq<Evidence>, documents: seq<Document>): set<nat> {
    (set i | 0 <= i < |evidence| :: evidence[i].documentId) + (set i | 0 <= i < |documents| :: documents[i].documentId)
  }

  function Sanitized(brief: Brief, evidence: seq<Evidence>, documents: seq<Document>): Brief {
    var seen, known := DocumentsSeen(evidence, documents), Known(evidence);
    brief.(items := SanitizedItems(brief.items, seen, known), documentIds := seen, chunkIds := known)
  }

  method KeepAllowed(ids: seq<nat>, allowed: set<nat>) returns (kept: seq<nat>)
    ensures kept == Allowed(ids, allowed)
  {
    kept := [];
    for k := 0 to |ids|
      invariant kept == Allowed(ids[..k], allowed)
    {
      assert ids[..k + 1][..k] == ids[..k];
      if ids[k] in allowed {
        kept := kept + [ids[k]];
      }
    }
    assert ids[..|ids|] == ids;
  }

  method SanitizeBrief(brief: Brief, evidence: seq<Evidence>, documents: seq<Document>) returns (clean: Brief)
    ensures clean == Sanitized(brief, evidence, documents)
  {
    var seen, known := DocumentsSeen(evidence, documents), Known(evidence);
    var items: seq<EvidenceItem> := [];
    for k := 0 to |brief.items|
      invariant items == SanitizedItems(brief.items[..k], seen, known)
    {
      var item := brief.items[k];
      assert brief.items[..k + 1][..k] == brief.items[..k];
      var documentIds := KeepAllowed(item.documentIds, seen);
      var chunkIds := KeepAllowed(item.chunkIds, known);
      AllowedMembers(item.documentIds, seen);
      AllowedMembers(item.chunkIds, known);
      CitesExactlyWhenKept(item, seen, known);
      if documentIds != [] || chunkIds != [] {
        items := items + [item.(documentIds := documentIds, chunkIds := chunkIds)];
      }
    }
    assert brief.items[..|brief.items|] == brief.items;
    clean := brief.(items := items, documentIds := seen, chunkIds := known);
  }

  lemma {:induction false} AllowedMembers(ids: seq<nat>, allowed: set<nat>)
    ensures forall id :: id in Allowed(ids, allowed) <==> id in ids && id in allowed
  {
    if ids != [] {
      AllowedMembers(ids[..|ids| - 1], allowed);
      assert ids == ids[..|ids| - 1] + [ids[|ids| - 1]];
    }
  }

  lemma CitesExactlyWhenKept(item: EvidenceItem, documentIds: set<nat>, chunkIds: set<nat>)
    ensures Cites(item, documentIds, chunkIds)
            <==> Allowed(item.documentIds, documentIds) != [] || Allowed(item.chunkIds, chunkIds) != []
  {
    AllowedMembers(item.documentIds, documentIds);
    AllowedMembers(item.chunkIds, chunkIds);
    var d, c := Allowed(item.documentIds, documentIds), Allowed(item.chunkIds, chunkIds);
    if d != [] {
      assert d[0] in d;
    }
    if c != [] {
      assert c[0] in c;
    }
  }

  // The brief schema's provenance validator.
  predicate ValidProvenance(brief: Brief) {
    forall i | 0 <= i < |brief.items| ::
      && (forall id | id in brief.items[i].documentIds :: id in brief.documentIds)
      && (forall id | id in brief.items[i].chunkIds :: id in brief.chunkIds)
  }

  // What an item says, apart from its citations.
  function Bare(item: EvidenceItem): EvidenceItem {
    item.(documentIds := [], chunkIds := [])
  }

  function Claims(items: seq<EvidenceItem>): seq<EvidenceItem> {
    seq(|items|, i requires 0 <= i < |items| => Bare(items[i]))
  }

  // The claims with some observed support, in their order.
  function SupportedClaims(items: seq<EvidenceItem>, documentIds: set<nat>, chunkIds: set<nat>): seq<EvidenceItem> {
    if items == [] then []
    else
      SupportedClaims(items[..|items| - 1], documentIds, chunkIds)
      + if Cites(items[|items| - 1], documentIds, chunkIds) then [Bare(items[|items| - 1])] else []
  }

  lemma {:induction false} ItemsAreGrounded(items: seq<EvidenceItem>, documentIds: set<nat>, chunkIds: set<nat>)
    ensures var kept := SanitizedItems(items, documentIds, chunkIds);
      && Claims(kept) == SupportedClaims(items, documentIds, chunkIds)
      && forall i | 0 <= i < |kept| ::
           && (kept[i].documentIds != [] || kept[i].chunkIds != [])
           && (forall id | id in kept[i].documentIds :: id in documentIds)
           && (forall id | id in kept[i].chunkIds :: id in chunkIds)
  {
    if items != [] {
      var init, last := items[..|items| - 1], items[|items| - 1];
      ItemsAreGrounded(init, documentIds, chunkIds);
      hide Cites;
      CitesExactlyWhenKept(last, documentIds, chunkIds);
      AllowedMembers(last.documentIds, documentIds);
      AllowedMembers(last.chunkIds, chunkIds);
    }
  }

  /** Whatever the model writes, the brief passes its schema, cites only what was observed and drops only unsupported claims. */
  lemma BriefIsGrounded(brief: Brief, evidence: seq<Evidence>, documents: seq<Document>)
    ensures var clean := Sanitized(brief, evidence, documents);
      && ValidProvenance(clean)
      && (forall i | 0 <= i < |clean.items| :: clean.items[i].documentIds != [] || clean.items[i].chunkIds != [])
      && Claims(clean.items) == SupportedClaims(brief.items, DocumentsSeen(evidence, documents), Known(evidence))
      && clean.summary == brief.summary
  {
    hide SanitizedItems;
    ItemsAreGrounded(brief.items, DocumentsSeen(evidence, documents), Known(evidence));
  }

  /** Item by item: an item with some observed support keeps all of it and nothing else, any other is dropped. */
  lemma SupportIsKept(items: seq<EvidenceItem>, last: EvidenceItem, documentIds: set<nat>, chunkIds: set<nat>)
    ensures SanitizedItems([], documentIds, chunkIds) == []
    ensures var before, after := SanitizedItems(items, documentIds, chunkIds), SanitizedItems(items + [last], documentIds, chunkIds);
      if (forall id | id in last.documentIds :: id !in documentIds) && (forall id | id in last.chunkIds :: id !in chunkIds)
      then after == before
      else
        && |after| == |before| + 1 && before <= after
        && var item := after[|before|];
           && item.claim == last.claim && item.relevance == last.relevance && item.notes == last.notes
           && (forall id :: id in item.documentIds <==> id in last.documentIds && id in documentIds)
           && (forall id :: id in item.chunkIds <==> id in last.chunkIds && id in chunkIds)
  {
    assert (items + [last])[..|items|] == items;
    AllowedMembers(last.documentIds, documentIds);
    AllowedMembers(last.chunkIds, chunkIds);
    hide Allowed;
  }

  // ---- Distinct chunks ----

  lemma {:induction false} NewItemsAreNew(known: set<nat>, items: seq<Evidence>)
    ensures forall i | 0 <= i < |NewItems(known, items)| :: NewItems(known, items)[i].chunkId !in known
  {
    if items != [] {
      NewItemsAreNew(known, items[..|items| - 1]);
    }
  }

  // The result lists no chunk twice, unless it is held already.
  ghost predicate NewOnce(held: seq<Evidence>, items: seq<Evidence>) {
    forall i, j | 0 <= i < j < |items| ::
      items[i].chunkId != items[j].chunkId || items[i].chunkId in Known(held)
  }

  lemma {:induction false} NewItemsDistinct(known: set<nat>, items: seq<Evidence>)
    ensures Distinct(ChunkIds(NewItems(known, items)))
            <==> forall i, j | 0 <= i < j < |items| :: items[i].chunkId != items[j].chunkId || items[i].chunkId in known
    ensures forall i | 0 <= i < |items| && items[i].chunkId !in known :: items[i].chunkId in ChunkIds(NewItems(known, items))
    ensures forall id | id in ChunkIds(NewItems(known, items)) :: exists i | 0 <= i < |items| :: items[i].chunkId == id
  {
    if items != [] {
      var n := |items| - 1;
      var front, last := items[..n], items[n];
      NewItemsDistinct(known, front);
      var before := NewItems(known, front);
      assert forall i | 0 <= i < n :: front[i] == items[i];
      if last.chunkId !in known {
        ChunkIdsAppend(before, last);
        AppendDistinctExactly(ChunkIds(before), last.chunkId);
      } else {
        assert NewItems(known, items) == before;
      }
    }
  }

  lemma AppendDistinctExactly(ids: seq<nat>, id: nat)
    ensures Distinct(ids + [id]) <==> Distinct(ids) && id !in ids
  {
    var more := ids + [id];
    if Distinct(more) {
      forall i, j | 0 <= i < j < |ids| ensures ids[i] != ids[j] {
        assert more[i] == ids[i] && more[j] == ids[j];
      }
      forall i | 0 <= i < |ids| ensures ids[i] != id {
        assert more[i] == ids[i] && more[|ids|] == id;
      }
    }
  }

  lemma MergedIsDistinct(held: seq<Evidence>, items: seq<Evidence>)
    requires Distinct(ChunkIds(held))
    ensures Distinct(ChunkIds(Merged(held, items))) <==> Distinct(ChunkIds(NewItems(Known(held), items)))
  {
    var fresher := NewItems(Known(held), items);
    NewItemsAreNew(Known(held), items);
    var ids, more := ChunkIds(Merged(held, items)), ChunkIds(fresher);
    assert ids == ChunkIds(held) + more;
    if Distinct(ids) {
      forall i, j | 0 <= i < j < |more| ensures more[i] != more[j] {
        assert ids[|held| + i] == more[i] && ids[|held| + j] == more[j];
      }
    }
    if Distinct(more) {
      forall i, j | 0 <= i < j < |ids| ensures ids[i] != ids[j] {
        if i < |held| <= j {
          assert held[i].chunkId in Known(held) && fresher[j - |held|].chunkId !in Known(held);
        }
      }
    }
  }

  /** Merging keeps the chunks distinct exactly when the result lists no chunk twice that is not held already. */
  lemma MergeIsDistinctExactlyWhen(held: seq<Evidence>, items: seq<Evidence>)
    requires Distinct(ChunkIds(held))
    ensures Distinct(ChunkIds(Merged(held, items))) <==> NewOnce(held, items)
  {
    MergedIsDistinct(held, items);
    NewItemsDistinct(Known(held), items);
  }

  /**
    One result that lists a chunk twice puts it into the evidence twice. The merge accepts such a result; none of the
    three registered tools gives one.
  */
  lemma RepeatedChunkIsHeldTwice(item: Evidence)
    ensures Merged([], [item, item]) == [item, item] && !Distinct(ChunkIds(Merged([], [item, item])))
  {
    var items := [item, item];
    assert Known([]) == {};
    assert items[..1] == [item] && [item][..0] == [];
    assert NewItems({}, [item]) == [item];
    var ids := ChunkIds(items);
    assert ids[0] == ids[1];
  }

  // No result of a tool lists a chunk twice. This holds of the three registered tools: the vector search keeps one item
  // per chunk, the graph search loads one row per chunk, and the document lookup and all failures return no evidence.
  ghost predicate ResultsListOnce(box: Toolbox) {
    forall call: Call, n: nat :: Distinct(ChunkIds(ResultOf(call.tool, box.handle(call, n)).evidence))
  }

  ghost predicate EntriesListOnce(entries: Entries) {
    forall key | key in entries :: Distinct(ChunkIds(entries[key].evidence))
  }

  lemma CallListsOnce(box: Toolbox, agentFingerprint: (AgentName, Call) -> string, call: Call, entries: Entries, ran: seq<Call>)
    requires ResultsListOnce(box) && EntriesListOnce(entries)
    ensures var e := ExecuteAs(EvidenceRole, agentFingerprint, box, call, Some(entries), ran);
      && Distinct(ChunkIds(e.result.evidence)) && e.cache.Some? && EntriesListOnce(e.cache.value)
  {
    var n := Normalized(box, call);
    if n.Some? {
      assert Distinct(ChunkIds(ResultOf(n.value.tool, box.handle(n.value, |ran|)).evidence));
    }
  }

  /** If every result lists each chunk once, so does the evidence at the end of every gathering. */
  lemma {:induction false} GatheredEvidenceIsDistinct(
      model: Model, box: Toolbox, agentFingerprint: (AgentName, Call) -> string, maxSteps: nat, maxCalls: nat,
      g: Gathering, step: nat)
    requires ResultsListOnce(box) && EntriesListOnce(g.cache) && Distinct(ChunkIds(g.evidence)) && 1 <= step
    ensures var end := GatherFrom(model, box, agentFingerprint, maxSteps, maxCalls, g, step);
      end.Some? ==> Distinct(ChunkIds(end.value.gathered.evidence))
    decreases maxSteps + 1 - step
  {
    hide TakeCall, Distinct, ResultsListOnce, EntriesListOnce;
    if step <= maxSteps && |g.history| < maxCalls {
      var choice := model.choose(g.evidence, g.documents, g.history, step);
      if choice.Some? && choice.value.Ask? {
        CallKeepsDistinct(box, agentFingerprint, g, step, choice.value.call);
        GatheredEvidenceIsDistinct(model, box, agentFingerprint, maxSteps, maxCalls,
                                   TakeCall(box, agentFingerprint, g, step, choice.value.call), step + 1);
      }
    }
  }

  lemma CallKeepsDistinct(box: Toolbox, agentFingerprint: (AgentName, Call) -> string, g: Gathering, step: nat, call: Call)
    requires ResultsListOnce(box) && EntriesListOnce(g.cache) && Distinct(ChunkIds(g.evidence))
    ensures var after := TakeCall(box, agentFingerprint, g, step, call);
      EntriesListOnce(after.cache) && Distinct(ChunkIds(after.evidence))
  {
    hide ResultsListOnce, EntriesListOnce, ExecuteAs, Merged, AddDocument;
    CallListsOnce(box, agentFingerprint, call, g.cache, g.ran);
    var items := ExecuteAs(EvidenceRole, agentFingerprint, box, call, Some(g.cache), g.ran).result.evidence;
    OnceIsNewOnce(g.evidence, items);
    MergeIsDistinctExactlyWhen(g.evidence, items);
  }

  lemma OnceIsNewOnce(held: seq<Evidence>, items: seq<Evidence>)
    requires Distinct(ChunkIds(items))
    ensures NewOnce(held, items)
  {
    forall i, j | 0 <= i < j < |items| ensures items[i].chunkId != items[j].chunkId {
      assert ChunkIds(items)[i] != ChunkIds(items)[j];
    }
  }

  // ---- What is merged, item by item ----

  ghost predicate Holds(evidence: seq<Evidence>, chunkId: nat) {
    exists i | 0 <= i < |evidence| :: evidence[i].chunkId == chunkId
  }

  /** The merge leaves what is held in place and appends, in their order, the items whose chunk is not held. */
  lemma {:induction false} MergeAppendsWhatIsNew(held: seq<Evidence>, first: seq<Evidence>, last: Evidence)
    ensures Merged(held, []) == held
    ensures Merged(held, first + [last]) == Merged(held, first) + if Holds(held, last.chunkId) then [] else [last]
    ensures held <= Merged(held, first)
  {
    assert NewItems(Known(held), []) == [];
    assert (first + [last])[..|first|] == first;
    KnownIsHeld(held, last.chunkId);
    var kept := if last.chunkId in Known(held) then [] else [last];
    assert Merged(held, first + [last]) == held + (NewItems(Known(held), first) + kept);
  }

  lemma KnownIsHeld(evidence: seq<Evidence>, chunkId: nat)
    ensures chunkId in Known(evidence) <==> Holds(evidence, chunkId)
  {
  }

  // ---- The gathering is the model's ----

  // The calls taken one after the other.
  ghost function AfterCalls(box: Toolbox, agentFingerprint: (AgentName, Call) -> string, g: Gathering, calls: seq<Call>): Gathering {
    if calls == [] then g
    else
      var before := AfterCalls(box, agentFingerprint, g, calls[..|calls| - 1]);
      TakeCall(box, agentFingerprint, before, |before.history| + 1, calls[|calls| - 1])
  }

  ghost function ChoiceAfter(model: Model, g: Gathering): Option<Choice> {
    model.choose(g.evidence, g.documents, g.history, |g.history| + 1)
  }

  // Each call is the model's choice when it knows what the calls before it returned.
  ghost predicate Chosen(model: Model, box: Toolbox, agentFingerprint: (AgentName, Call) -> string, g: Gathering, calls: seq<Call>) {
    forall i: nat | i < |calls| :: ChoiceAfter(model, AfterCalls(box, agentFingerprint, g, calls[..i])) == Some(Ask(calls[i]))
  }

  lemma {:induction false} AfterFirstCall(box: Toolbox, agentFingerprint: (AgentName, Call) -> string, g: Gathering, call: Call,
                                          calls: seq<Call>)
    ensures AfterCalls(box, agentFingerprint, g, [call] + calls)
         == AfterCalls(box, agentFingerprint, TakeCall(box, agentFingerprint, g, |g.history| + 1, call), calls)
  {
    hide TakeCall;
    var all := [call] + calls;
    if calls == [] {
      assert all == [call] && all[..0] == [];
    } else {
      assert all[..|all| - 1] == [call] + calls[..|calls| - 1];
      AfterFirstCall(box, agentFingerprint, g, call, calls[..|calls| - 1]);
    }
  }

  lemma ChosenFirst(model: Model, box: Toolbox, agentFingerprint: (AgentName, Call) -> string, g: Gathering, call: Call,
                    calls: seq<Call>)
    requires ChoiceAfter(model, g) == Some(Ask(call))
    requires Chosen(model, box, agentFingerprint, TakeCall(box, agentFingerprint, g, |g.history| + 1, call), calls)
    ensures Chosen(model, box, agentFingerprint, g, [call] + calls)
  {
    hide TakeCall, ChoiceAfter;
    var all, next := [call] + calls, TakeCall(box, agentFingerprint, g, |g.history| + 1, call);
    forall i: nat | i < |all| ensures ChoiceAfter(model, AfterCalls(box, agentFingerprint, g, all[..i])) == Some(Ask(all[i])) {
      if i == 0 {
        assert all[..0] == [];
      } else {
        assert all[..i] == [call] + calls[..i - 1];
        AfterFirstCall(box, agentFingerprint, g, call, calls[..i - 1]);
        assert ChoiceAfter(model, AfterCalls(box, agentFingerprint, next, calls[..i - 1])) == Some(Ask(calls[i - 1]));
      }
    }
  }

  /** A gathering makes the calls the model asks for, one by one, and stops early only when the model does. */
  lemma {:induction false} GatheringFollowsTheModel(
      model: Model, box: Toolbox, agentFingerprint: (AgentName, Call) -> string, maxSteps: nat, maxCalls: nat,
      g: Gathering, step: nat, end: Stopped) returns (calls: seq<Call>)
    requires |g.history| == step - 1
    requires GatherFrom(model, box, agentFingerprint, maxSteps, maxCalls, g, step) == Some(end)
    ensures end.gathered == AfterCalls(box, agentFingerprint, g, calls) && Chosen(model, box, agentFingerprint, g, calls)
    ensures |end.gathered.history| == |g.history| + |calls|
    ensures end.termination == AgentStopped ==> ChoiceAfter(model, end.gathered) == Some(Stop)
    decreases maxSteps + 1 - step
  {
    hide TakeCall, Chosen, AfterCalls;
    calls := [];
    ChosenNone(model, box, agentFingerprint, g);
    if step <= maxSteps && |g.history| < maxCalls {
      var choice := model.choose(g.evidence, g.documents, g.history, step).value;
      if choice.Ask? {
        var next := TakeCall(box, agentFingerprint, g, step, choice.call);
        OneEntryPerCall(box, agentFingerprint, g, step, choice.call);
        var rest := GatheringFollowsTheModel(model, box, agentFingerprint, maxSteps, maxCalls, next, step + 1, end);
        AfterFirstCall(box, agentFingerprint, g, choice.call, rest);
        ChosenFirst(model, box, agentFingerprint, g, choice.call, rest);
        calls := [choice.call] + rest;
      }
    }
  }

  lemma ChosenNone(model: Model, box: Toolbox, agentFingerprint: (AgentName, Call) -> string, g: Gathering)
    ensures Chosen(model, box, agentFingerprint, g, []) && AfterCalls(box, agentFingerprint, g, []) == g
  {
  }

  lemma OneEntryPerCall(box: Toolbox, agentFingerprint: (AgentName, Call) -> string, g: Gathering, step: nat, call: Call)
    ensures |TakeCall(box, agentFingerprint, g, step, call).history| == |g.history| + 1
  {
    hide Merged, AddDocument, ExecuteAs;
  }

  /** What the loop records of one call. */
  lemma CallIsRecorded(box: Toolbox, agentFingerprint: (AgentName, Call) -> string, g: Gathering, step: nat, call: Call)
    ensures var e := ExecuteAs(EvidenceRole, agentFingerprint, box, call, Some(g.cache), g.ran);
      var after := TakeCall(box, agentFingerprint, g, step, call);
      && after.ran == e.ran && Some(after.cache) == e.cache && after.evidence == Merged(g.evidence, e.result.evidence)
      && |after.history| == |g.history| + 1 && g.history <= after.history
      && (match e.result.document
          case None => after.documents == g.documents
          case Some(document) =>
            after.documents == g.documents + if exists i | 0 <= i < |g.documents| :: g.documents[i].documentId == document.documentId
                                             then [] else [document])
      && var entry := after.history[|g.history|];
         && entry.step == step && entry.tool == call.tool && entry.keys == e.keys && entry.fingerprint == e.fingerprint
         && entry.success == e.result.success && entry.summary == e.result.summary && entry.cached == e.result.cached
         && entry.errorCode == e.result.errorCode
  {
    hide Merged, ExecuteCall;
    CacheStays(box, call, g.cache, g.ran);
    var document := ExecuteAs(EvidenceRole, agentFingerprint, box, call, Some(g.cache), g.ran).result.document;
    if document.Some? {
      DocumentIsHeld(g.documents, document.value);
    }
  }

  lemma DocumentIsHeld(documents: seq<Document>, document: Document)
    ensures AddDocument(documents, Some(document)) ==
      documents + if exists i | 0 <= i < |documents| :: documents[i].documentId == document.documentId then [] else [document]
  {
    if i :| 0 <= i < |documents| && documents[i].documentId == document.documentId {
      assert DocumentIds(documents)[i] == document.documentId;
    } else {
      assert document.documentId !in DocumentIds(documents);
    }
  }

  // ---- The agent object ----

  class OpenAIEvidenceAgent {
    const model: Model
    const tools: ToolRegistry
    const permissions: AgentToolPermissions
    const maxSteps: nat
    const maxToolCalls: nat

    constructor (model: Model, tools: ToolRegistry, permissions: AgentToolPermissions, maxSteps: nat, maxToolCalls: nat)
      ensures this.model == model && this.tools == tools && this.permissions == permissions
      ensures this.maxSteps == maxSteps && this.maxToolCalls == maxToolCalls
    {
      this.model, this.tools, this.permissions, this.maxSteps, this.maxToolCalls :=
        model, tools, permissions, maxSteps, maxToolCalls;
    }

    /** The for loop with its else branch, and the sanitised brief. */
    method Gather() returns (outcome: Option<Outcome>)
      modifies tools
      ensures match GatherFrom(model, tools.box, permissions.agentFingerprint, maxSteps, maxToolCalls,
                               Gathering([], [], [], map[], old(tools.ran)), 1)
        case None => outcome.None?
        case Some(end) =>
          && tools.ran == end.gathered.ran
          && match model.brief(end.gathered.evidence, end.gathered.documents)
             case None => outcome.None?
             case Some(raw) => outcome == Some(Outcome(
               Sanitized(raw, end.gathered.evidence, end.gathered.documents), end.gathered.evidence, end.gathered.documents,
               end.gathered.history, end.stepsUsed, end.termination))
    {
      hide Merged, AddDocument, ExecuteAs, Sanitized;
      var g := Gathering([], [], [], map[], tools.ran);
      ghost var begun := g;
      var cache := new ToolCache(map[]);
      var stepsUsed: nat := 0;
      var termination := AgentStopped;
      var broke := false;
      var step := 1;
      while step <= maxSteps && !broke
        invariant 1 <= step <= maxSteps + 1 && g.ran == tools.ran && g.cache == cache.entries && fresh(cache)
        invariant if broke then
                    GatherFrom(model, tools.box, permissions.agentFingerprint, maxSteps, maxToolCalls, begun, 1)
                    == Some(Stopped(g, stepsUsed, termination))
                  else
                    && stepsUsed == step - 1
                    && GatherFrom(model, tools.box, permissions.agentFingerprint, maxSteps, maxToolCalls, begun, 1)
                    == GatherFrom(model, tools.box, permissions.agentFingerprint, maxSteps, maxToolCalls, g, step)
        decreases maxSteps + 1 - step, !broke
      {
        if |g.history| >= maxToolCalls {
          termination, broke := MaxToolCallsReached, true;
        } else {
          stepsUsed := step;
          var choice := model.choose(g.evidence, g.documents, g.history, step);
          if choice.None? {
            return None;
          }
          if choice.value.Stop? {
            termination, broke := AgentStopped, true;
          } else {
            g := Request(g, step, choice.value.call, cache);
            step := step + 1;
          }
        }
      }
      if !broke {
        termination := MaxStepsReached;
      }
      var raw := model.brief(g.evidence, g.documents);
      if raw.None? {
        return None;
      }
      var brief := SanitizeBrief(raw.value, g.evidence, g.documents);
      return Some(Outcome(brief, g.evidence, g.documents, g.history, stepsUsed, termination));
    }

    // One permitted call, recorded and merged.
    method Request(g: Gathering, step: nat, call: Call, cache: ToolCache) returns (after: Gathering)
      requires g.cache == cache.entries && g.ran == tools.ran
      modifies tools, cache
      ensures after == TakeCall(tools.box, permissions.agentFingerprint, g, step, call)
      ensures after.cache == cache.entries && after.ran == tools.ran
    {
      hide Merged, AddDocument, ExecuteAs;
      var result, fingerprint, keys := permissions.Execute(EvidenceRole, tools, call, cache);
      var entry := HistoryEntry(step, call.tool, result.success, result.summary, keys, fingerprint, result.cached,
                                result.errorCode);
      var evidence, documents := MergeObservations(g.evidence, g.documents, result);
      after := Gathering(evidence, documents, g.history + [entry], cache.entries, tools.ran);
    }
  }
}
