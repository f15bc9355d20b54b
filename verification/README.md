# Verified models of the enterprise assessment backend

This project models the parts of the backend whose behaviour is spread over several functions or over a whole run, and
proves what their callers rely on. Each module follows one component:

- `Collections`, `Wrappers`: shared functions on sequences, sets and integers, and optional values and results.
- `Text`, `Normalization`, `Chunking`, `Provenance`, `Ingestion`, `Markdown`: from uploaded text to stored chunks. The
  Markdown parser splits text into headed segments; the normaliser and the window loop cut chunks; the provenance pass
  finds the segments again in the normalised text and gives each chunk its pages and sections; ingestion does all of it
  in one transaction, normalising twice.
- `GraphStore`, `Traversal`, `Extraction`, `Enrichment`, `EnrichedRows`, `Retrieval`: the knowledge graph. Tables with
  unique keys and references, a breadth-first search under an entity budget, a row limit and a depth limit, deduplicated
  model output, idempotent all-or-nothing enrichment with the rows it leaves, and retrieval that grounds every traversed
  edge.
- `Gate`, `Governance`, `Records`, `RuntimeReviews`: the runtime risk gate and the human-review workflow. `Governance`
  states one case as a value and every call as a function on it, and proves an invariant over all runs of calls;
  `Records` says column by column what each call writes; `RuntimeReviews` holds the tables and the service whose methods
  update them in place, each proved equal to the case function it names and to leave every other case alone.
- `Tools`, `AgentGraph`, `EvidenceAgent`: the tool registry with its per-run cache, the single-agent graph and the
  Evidence Agent's loop, for an agent that may decide anything or raise.
- `Retry`, `Pareto`: exponential backoff, and the comparison of evaluated modes by a dominance that skips undefined
  metrics.

Loops and objects of the source are methods and classes here. Each is proved against a specification function of its
inputs or of the old state, and the theorems are lemmas about those functions.

How outside things enter the model:

- Model output, embeddings, tool handlers, agents and validation schemas are arbitrary functions given as parameters; an
  exception is one more outcome of such a call. Agents may depend on the step number, handlers on the number of handler
  runs so far, so neither has to be deterministic unless a lemma says so.
- Clocks are a strictly rising function of the number of readings. Random values, hashes, fingerprints, Unicode
  canonicalisation and case folding are parameters; only the idempotence of canonicalisation and the injectivity of
  fingerprints are ever assumed, and only where a lemma's `requires` says so.
- Database tables are sequences in `(created_at, id)` order or maps by key; fresh identifiers come from a counter or are
  required to be new. A transaction is a snapshot of the tables with commit and rollback.
- Whitespace is the set Python's `str.isspace` accepts; confidences, delays and metrics are exact reals.

Points of the code that a reader may not expect, kept as they are, each with a failing input and the exact condition:

- The telemetry's degraded health ignores the graph retrieval's degraded flag, which the gate's signal counts
  (`app/runtime/telemetry.py:48-60` against `app/services/runtime_governance.py:496-514`). With an unavailable graph
  store this shows once both `review_on_degraded_execution` and `review_on_insufficient_evidence` are off, because the
  retrieval's error code raises the second switch's signal as well: `Governance.UnavailableGraphNeedsBothSwitchesOff`,
  and for every such execution, candidate and policy `Governance.DegradedGraphReportsFullHealth`.
- With a chunk size of one, windows can skip a space or line break (`app/rag/chunking.py:45-76`):
  `Chunking.SizeOneSkipsASpace`, `Chunking.CoveredExactlyUnlessSkipped`. The function accepts that size; the settings
  demand at least 200 (`app/core/config.py:63`), so the shipped service never skips anything.
- A tool result that lists a chunk twice is merged with the repetition (`app/agents/evidence_agent.py:202-203`):
  `EvidenceAgent.RepeatedChunkIsHeldTwice`, `EvidenceAgent.MergeIsDistinctExactlyWhen`. The three registered tools never
  give such a result: the vector search removes repeats (`app/rag/retrieval.py:81-88`), the graph search loads one row
  per chunk (`app/repositories/knowledge_graph.py:337-364`) and the document lookup returns no evidence. So the premise
  of `EvidenceAgent.GatheredEvidenceIsDistinct` holds of them.

The synthesis node's fallback reason "completed" (`app/graph/nodes.py:206`) is never used: `AgentGraph.AcceptedRuns`.

## Model

| member | source | states |
|---|---|---|
| `Normalization.NormalizeText` | app/rag/chunking.py:16-29 | the line loop with its blank-line flag yields the normalised text |
| `Normalization.NormalizationKeepsInk` | app/rag/chunking.py:16-29 | the sequence of non-whitespace characters is unchanged |
| `Normalization.NormalizationIsIdempotent` | app/rag/chunking.py:16-29 | normalising twice is normalising once |
| `Normalization.NormalizedLayout` | app/rag/chunking.py:16-29 | no carriage return, no whitespace at a line's end, no double blank line, trimmed; empty exactly for blank text |
| `Normalization.NormalizedExactlyWhenClean` | app/rag/chunking.py:16-29 | a text is its own normal form exactly when it has that layout |
| `Normalization.TidyOfJoin` | app/rag/chunking.py:16-29 | before the final strip, a blank-line join of any parts becomes the join of the parts that leave something |
| `Normalization.NormalizationDistributes` | app/rag/chunking.py:16-29 | normalising a blank-line join of trimmed parts normalises each part |
| `Chunking.ChunkText` | app/rag/chunking.py:32-78 | the whole function, including the rejected sizes and overlaps |
| `Chunking.CollectChunks` | app/rag/chunking.py:43-78 | the window loop yields the specified chunks and terminates for every legal overlap |
| `Chunking.CutWindow` | app/rag/chunking.py:45-56 | the cut of one window |
| `Chunking.TrimWindow` | app/rag/chunking.py:58-72 | the trimmed chunk of one window, none for a blank window |
| `Chunking.BoundaryRule` | app/rag/chunking.py:50-56 | the last blank line wins, else the last line break, else the last space, else none |
| `Chunking.WindowEndMonotone` | app/rag/chunking.py:45-56 | a later start never cuts earlier, despite the three tiers |
| `Chunking.WindowsAdvance` | app/rag/chunking.py:45-76 | windows start strictly later and end no earlier, reach the end of the text and step back at most the overlap |
| `Chunking.EmptyWindowExactlyWhen` | app/rag/chunking.py:45-56 | a window is empty exactly at such a position |
| `Chunking.CoveredExactlyUnlessSkipped` | app/rag/chunking.py:45-76 | a position lies in some window exactly unless the chunk size is one and it is a line break or space before the text's last position; what is missed is whitespace |
| `Chunking.SizeOneSkipsASpace` | app/rag/chunking.py:45-76 | with size one the space of a three-letter text is in no window |
| `Chunking.WindowCount` | app/rag/chunking.py:45-76 | (windows - 1) * max(1, chunk_size div 2 - overlap) is less than the text length |
| `Chunking.ChunkOfWindow` | app/rag/chunking.py:58-72 | a window gives its visible part, trimmed at both ends, or nothing when it is blank |
| `Chunking.ChunksDefined` | app/rag/chunking.py:34-39 | sizes and overlaps are accepted exactly when 0 <= overlap < chunk_size |
| `Chunking.ChunksAreSound` | app/rag/chunking.py:32-78 | chunks are numbered, exact non-empty trimmed slices of at most chunk_size, with non-decreasing offsets overlapping by at most the overlap |
| `Chunking.ChunksCoverInk` | app/rag/chunking.py:32-78 | every non-whitespace position lies in some chunk |
| `Chunking.ChunkCount` | app/rag/chunking.py:32-78 | (chunks - 1) * max(1, chunk_size div 2 - overlap) is less than the text length |
| `Chunking.WindowEndIsTheCut` | app/rag/chunking.py:45-56 | a window ends at the text's end when that is in reach, else at the last blank line, line break or space from its middle on, in this order, else at its full size, and nowhere else |
| `Chunking.WindowsAreExactly` | app/rag/chunking.py:43-76 | a sequence of windows is the loop's exactly when it starts there, is cut that way, ends with the text, and each next start is the end minus the overlap when that lies beyond the start, else one position on |
| `Chunking.OverlapIsRepeated` | app/rag/chunking.py:75-76 | every visible character among a window's last `overlap` positions, beyond its first, is in two chunks when the window ends before the text |
| `Chunking.ChunksOfSlidingWindows` | app/rag/chunking.py:32-78 | for any windows cut and overlapped that way the chunks of the text are their visible parts in order, and each visible overlap is in two of them |
| `Provenance.BuildProvenanceSpans` | app/rag/ingestion.py:169-186 | the cursor loop yields the specified spans |
| `Provenance.PlacementIsUnique` | app/rag/ingestion.py:169-186 | at most one list of spans places all visible segments in order with only whitespace between them |
| `Provenance.SegmentsAreFoundExactly` | app/rag/ingestion.py:169-186 | the greedy search finds that placement in the normalised join of any segments |
| `Provenance.PlacedSpans` | app/rag/ingestion.py:169-186 | one span per visible segment, each exactly the segment's normalised text, disjoint and in order |
| `Provenance.InkIsInSpans` | app/rag/ingestion.py:169-186 | every non-whitespace position lies in a span |
| `Provenance.PagesExactly` | app/rag/ingestion.py:189-214 | the page list is strictly increasing and holds exactly the pages of the overlapping segments |
| `Provenance.SectionsExactly` | app/rag/ingestion.py:189-214 | the section list holds each non-empty heading of the overlapping segments once |
| `Provenance.PagesOfChunk` | app/rag/ingestion.py:189-214 | a page is listed exactly when one of its segments shares a character position with the chunk |
| `Provenance.SectionsOfChunk` | app/rag/ingestion.py:189-214 | the same for headings |
| `Provenance.RangeOfChunk` | app/rag/ingestion.py:204-211 | the page range is missing exactly without pages, else it is the smallest and the largest listed page; pages are listed in order |
| `Provenance.HeadingsInOrder` | app/rag/ingestion.py:200-203 | of two listed headings the first is the one that occurs first |
| `Provenance.OneMoreSegment` | app/rag/ingestion.py:169-186 | for any text and segments, one more segment leaves the spans and gets its own at its first occurrence behind them, or none when it is blank or does not occur |
| `Ingestion.KnowledgeIngestion.Ingest` | app/rag/ingestion.py:52-146 | the call ends exactly as the decided outcome says, with those tables: blank text, known hash, refused sizes, embedder error, wrong vector count, or the document stored with its attributed chunks; an error leaves the tables as they were |
| `Ingestion.StoresExactlyWhen` | app/rag/ingestion.py:64-140 | exactly when the text is refused as blank, answered as a duplicate, or stored |
| `Ingestion.ReuploadIsADuplicate` | app/rag/ingestion.py:70-82 | a document taken with deduplication is stored, and any later text with the same normal form is answered with it and its chunk count, changing nothing |
| `Ingestion.VisibleTextHasChunks` | app/rag/ingestion.py:100-101 | the no-chunks rejection cannot fire once the content is not blank |
| `Ingestion.ChunksAreAttributed` | app/rag/ingestion.py:64-130 | for any segments, a chunk lists the page and the heading of each of its visible characters, and no page or heading without a shared position |
| `Ingestion.WhatIsStored` | app/rag/ingestion.py:83-140 | the new document has the given id and title, the normalised content and its hash; its rows are numbered in order, row i with the i-th chunk's content and the i-th vector the embedder returned for those contents; no other row changes |
| `Ingestion.StoredRowsAreAttributed` | app/rag/ingestion.py:114-130 | for a document made of its segments each stored row lists all pages and headings of its visible characters, no others, and the range of the pages |
| `Ingestion.FoundIsEarliest` | app/rag/ingestion.py:70-74 | a known hash is answered with the earliest document that has it, an unknown one with nothing |
| `Markdown.MarkdownDocumentParser.Flush` | app/ingestion/parsers/markdown.py:25-29 | ending a block appends the strip of its joined lines under the current heading, or nothing when that is empty |
| `Markdown.MarkdownDocumentParser.Parse` | app/ingestion/parsers/markdown.py:31-40 | one segment per visible block, each the strip of the block's joined lines under its heading; sections are the headings in order |
| `Markdown.BlocksAreMaximalRuns` | app/ingestion/parsers/markdown.py:31-40 | the blocks are the lines in order, cut exactly in front of every heading line |
| `Markdown.MaximalRunsAreUnique` | app/ingestion/parsers/markdown.py:31-40 | no other cut of the lines has that property |
| `Markdown.EveryCharacterKeepsItsHeading` | app/ingestion/parsers/markdown.py:31-40 | the segments' visible characters are the lines', in order, each under the nearest heading at or above its line |
| `Markdown.SegmentsAreTrimmed` | app/ingestion/parsers/markdown.py:25-29 | no segment is blank or has whitespace at its ends |
| `Markdown.ChunksListTheNearestHeading` | app/rag/ingestion.py:114-130 | a chunk of a parsed Markdown file lists, for each visible character, the nearest heading at or above the character's line in the file |
| `Markdown.NothingVisibleIsLost` | app/ingestion/parsers/markdown.py:42-43 | the joined text has exactly the lines' visible characters |
| `Markdown.BlockKeepsItsLines` | app/ingestion/parsers/markdown.py:25-29 | the text of a segment is its block's lines with their line breaks, cut only at blank ends |
| `Markdown.SectionsAreTheTitles` | app/ingestion/parsers/markdown.py:31-38 | each heading line adds its captured title without the blank ends, other lines add nothing |
| `GraphStore.KnowledgeGraphStore.Upsert` | app/repositories/knowledge_graph.py:81-114 | one entity per type and normalised name; a rejected name changes nothing |
| `GraphStore.KnowledgeGraphStore.Mentions` | app/repositories/knowledge_graph.py:165-201 | one mention per entity and chunk; ownership, name and confidence rejections change nothing |
| `GraphStore.KnowledgeGraphStore.Relate` | app/repositories/knowledge_graph.py:203-244 | one relationship per endpoints, kind and chunk; self edges and missing endpoints are rejected |
| `GraphStore.KnowledgeGraphStore.Rollback` | app/repositories/knowledge_graph.py:384-385 | the tables are as at the last commit |
| `GraphStore.UpsertIsSound` | app/repositories/knowledge_graph.py:81-114 | unique keys and references survive |
| `GraphStore.AddMentionIsSound` | app/repositories/knowledge_graph.py:165-201 | unique keys and references survive |
| `GraphStore.AddRelationshipIsSound` | app/repositories/knowledge_graph.py:203-244 | unique keys and references survive |
| `GraphStore.UpsertExactly` | app/repositories/knowledge_graph.py:81-114 | an unknown name gets a new row with the next id, its canonical and normalised name and the description; a known one keeps its row and at most gains a missing description; a blank name is refused |
| `GraphStore.AddMentionExactly` | app/repositories/knowledge_graph.py:165-201 | which of the four rejections applies, in order; else the new row with its canonicalised text, or the row that the entity already has in the chunk |
| `GraphStore.AddRelationshipExactly` | app/repositories/knowledge_graph.py:203-244 | which of the five rejections applies, in order; else the new row from the source to the target, or the row that already joins them so |
| `Traversal.Explore` | app/repositories/knowledge_graph.py:246-292 | the search loop over layers yields the specified search, for any bounds |
| `Traversal.ScanLayer` | app/repositories/knowledge_graph.py:282-290 | the edge loop of one layer: new endpoints are taken together or the edge is skipped |
| `Traversal.SearchWithinBounds` | app/repositories/knowledge_graph.py:255-292 | after every layer: at most max_entities entities, and each found edge is a stored one of sufficient confidence with both ends found |
| `Traversal.EveryEntityIsJoined` | app/repositories/knowledge_graph.py:255-292 | truncated or not, each found entity is within depth_used found edges of a seed |
| `Traversal.DepthUsedIsDeepestOrOneMore` | app/repositories/knowledge_graph.py:255-310 | layers are disjoint and make up the result, and depth_used is the deepest non-empty one or one more |
| `Traversal.CompleteUnlessFull` | app/repositories/knowledge_graph.py:255-292 | with no layer over the row limit, the result is every entity within max_depth hops exactly when they fit the budget, and then its edges are exactly those touching an entity within max_depth - 1 hops |
| `Traversal.SmallTableIsNotTruncated` | app/repositories/knowledge_graph.py:264-281 | a table of at most the row limit never has a truncated layer |
| `Traversal.LayerIsFetched` | app/repositories/knowledge_graph.py:264-281 | a layer holds exactly the rows that touch the frontier, are confident enough and have fewer than eight times max_entities such rows before them, in table order |
| `Traversal.NothingFittingIsLeftOut` | app/repositories/knowledge_graph.py:282-290 | truncated or not, a fetched edge is found exactly when the search ends with both its ends; one is left out only with the budget full, and then only earlier rows of the layer brought anything in |
| `Traversal.SeedsInOrder` | app/repositories/knowledge_graph.py:255-257 | the seeds are those given, in order, up to the budget |
| `Extraction.FilterEntities` | app/knowledge_graph/extraction.py:55-82 | the loop over candidates yields the specified entities or rejection |
| `Extraction.FilterRelationships` | app/knowledge_graph/extraction.py:97-139 | the same for relationships |
| `Extraction.AcceptedAreKept` | app/knowledge_graph/extraction.py:61-80 | success means every candidate was acceptable, and no sufficiently confident identity is lost |
| `Extraction.BestEntitiesAreBest` | app/knowledge_graph/extraction.py:61-80 | each identity keeps its first candidate of the highest confidence |
| `Extraction.OrderIsFirstSeen` | app/knowledge_graph/extraction.py:61-82 | identities are listed in the order of their first acceptance |
| `Extraction.ExtractedEntitiesAreGood` | app/knowledge_graph/extraction.py:55-82 | returned entities belong to the chunk and differ in local key and in identity |
| `Extraction.BestRelationshipsAreBest` | app/knowledge_graph/extraction.py:115-139 | an identity is kept exactly when one of its relationships is confident enough, and then by its first best one |
| `Extraction.ExtractedRelationshipsAreGood` | app/knowledge_graph/extraction.py:97-139 | returned relationships join two different known keys and differ in identity |
| `Extraction.EntitiesRefusedExactlyWhen` | app/knowledge_graph/extraction.py:55-82 | output is refused exactly when a candidate names another chunk or a name that normalises to nothing |
| `Extraction.EntitiesAreTheFirstKinds` | app/knowledge_graph/extraction.py:55-82 | each returned entity is, under its canonical name, the first of the most confident candidates of its type and name; they come in the order first offered; one is left out only when max_entities others were offered first |
| `Extraction.EdgesRefusedExactlyWhen` | app/knowledge_graph/extraction.py:97-139 | output is refused exactly when a relationship names another chunk or a key no entity has |
| `Extraction.EdgesAreTheBest` | app/knowledge_graph/extraction.py:97-139 | of every confident source, target and kind the first of the most confident relationships is returned, in the order first offered |
| `Enrichment.EnrichmentService.Enrich` | app/knowledge_graph/enrichment.py:43-124 | all chunks are enriched and committed with the counts of distinct ids, or the tables are as before the call |
| `Enrichment.EnrichmentService.PersistChunk` | app/knowledge_graph/enrichment.py:54-97 | one chunk's extraction, entities and relationships, with the failure that stopped it |
| `Enrichment.EnrichmentService.PersistEntities` | app/knowledge_graph/enrichment.py:59-77 | the entity loop, with the key resolution it leaves |
| `Enrichment.EnrichmentService.PersistRelationships` | app/knowledge_graph/enrichment.py:84-97 | the relationship loop, including the unknown-key error |
| `Enrichment.EnrichChunksReaches` | app/knowledge_graph/enrichment.py:54-97 | a finished enrichment only adds rows and fills in descriptions, keeps uniqueness and references, and keeps every counted and resolved id the id of a stored row |
| `Enrichment.CountedIdsAreRows` | app/knowledge_graph/enrichment.py:51-97 | every entity and relationship counted, and every key resolved for the last chunk, is a row of the resulting tables |
| `Enrichment.EnrichmentIsIdempotent` | app/knowledge_graph/enrichment.py:43-110 | enriching again with the same extractions gives the same tables and the same counts |
| `Enrichment.ResolutionIsInjective` | app/knowledge_graph/enrichment.py:59-77 | different identities resolve to different stored entities |
| `Enrichment.ExtractedChunkIsStored` | app/knowledge_graph/enrichment.py:54-97 | storing a chunk succeeds exactly when both extractors return; no store rejection and no unknown key can follow |
| `Enrichment.FailsOnlyInExtraction` | app/knowledge_graph/enrichment.py:43-124 | a failed enrichment failed in an extractor, or the document is missing |
| `EnrichedRows.EnrichedDocumentHasItsRows` | app/knowledge_graph/enrichment.py:54-97 | after a finished enrichment every accepted entity of every chunk has a mention in it, for the row with its type and name, and every accepted relationship a row of its kind and chunk whose source and target are the rows of the entities with its source and target keys, both counted; every new entity, mention, relationship, description and counted id comes from something accepted and carries its columns |
| `EnrichedRows.ChunksHaveTheirRows` | app/knowledge_graph/enrichment.py:54-97 | the same after any number of chunks |
| `EnrichedRows.EdgesAreStoredExactly` | app/knowledge_graph/enrichment.py:84-97 | the relationship loop of a chunk leaves entities and mentions alone, stores and counts one row per edge between what its keys resolve to, and adds only rows with an edge's description and confidence |
| `EnrichedRows.EntitiesAreStoredExactly` | app/knowledge_graph/enrichment.py:59-77 | the entity loop leaves relationships alone, mentions and counts every entity, and adds only rows, mentions and descriptions of its entities |
| `Retrieval.GetNeighborhood` | app/repositories/knowledge_graph.py:246-335 | the traversal's rows and evidence, read from the store |
| `Retrieval.SearchGraph` | app/knowledge_graph/retrieval.py:37-121 | the search result, including the empty match |
| `Retrieval.NoTraversedEdgeIsDropped` | app/knowledge_graph/retrieval.py:74-112 | on sound tables each traversed edge appears, in order, with both stored endpoints and the document that owns its chunk, both listed among the sources |
| `Retrieval.ReturnedWithinBounds` | app/repositories/knowledge_graph.py:246-335 | at most max_entities entities are returned, and every returned edge has both ends among them and enough confidence |
| `Retrieval.ReturnedIsComplete` | app/repositories/knowledge_graph.py:246-335 | on sound tables, for stored seeds and with no layer over the row limit: the entities returned are exactly those within max_depth hops exactly when they fit the budget, and then the edges returned are exactly those touching an entity within max_depth - 1 hops |
| `Retrieval.ReturnedIsJoined` | app/repositories/knowledge_graph.py:246-335 | on sound tables and truncated or not, each entity returned is within depth_used returned edges of a seed |
| `Retrieval.SourcesAreExactly` | app/repositories/knowledge_graph.py:302-364 | the mentions are exactly those of the returned entities, the evidence exactly the chunks of those mentions and of the returned edges, each with its document's id and title and its own content |
| `Retrieval.DepthIsResolved` | app/knowledge_graph/retrieval.py:45-66 | the traversal goes to the requested depth up to the limit, and to the limit when none or zero is requested |
| `Retrieval.MatchesAreReturned` | app/repositories/knowledge_graph.py:255-310 | the matches of a query come back unchanged in their order, and no related entity is one of them |
| `Gate.Evaluate` | app/runtime/gate.py:23-65 | the raised decision is the strongest of the risk decision, the block conditions and the review conditions |
| `Gate.ReasonCodes` | app/runtime/gate.py:81-109 | exactly the codes whose signal holds, in the reporting order |
| `Gate.OutcomeIsTheStrongest` | app/runtime/gate.py:23-65 | no condition is stronger than the outcome, and the outcome is the risk decision, a block or a required review that holds |
| `Gate.BlockedExactlyWhen` | app/runtime/gate.py:26-41 | blocked exactly when the model failed, provenance is invalid at high or critical risk with its switch on, a mitigation is missing at critical risk with its switch on, or the level's configured decision is a block |
| `Gate.ReviewRequiredExactlyWhen` | app/runtime/gate.py:43-57 | sent to review exactly when not blocked and the level is configured so or one of the seven conditions holds |
| `Gate.CompletedExactlyWhen` | app/runtime/gate.py:59-78 | otherwise completed, with a warning exactly when the level is configured for one, under the signals' own risk level |
| `Gate.OutcomeIsExplained` | app/runtime/gate.py:23-109 | an outcome other than automatic completion has a reason code, and each listed code's signal holds |
| `Gate.AdverseSignalNeverLowers` | app/runtime/gate.py:23-65 | under any policy, worse signals at the same risk level never give a weaker outcome |
| `Gate.MonotoneExactlyForRisingPolicies` | app/runtime/gate.py:23-78 | outcomes never fall as signals and risk worsen exactly when the policy does not fall as risk rises |
| `Gate.ComputeSignals` | app/services/runtime_governance.py:477-534 | the scan over risks and the flags by execution kind |
| `Gate.SignalsSay` | app/services/runtime_governance.py:484-534 | the risk level is the highest severity of a risk, low without risks; evidence and oversight are required exactly with a high or critical risk; mitigations are complete exactly when each risk's has a visible character |
| `Gate.ExecutionSignalsSay` | app/services/runtime_governance.py:496-520 | degraded, failed retrieval, failed tool and unavailable specialist, for each kind of execution |
| `Gate.AddingARisk` | app/services/runtime_governance.py:491-496 | a result with one more risk is at least as risky |
| `Gate.RaisingASeverity` | app/services/runtime_governance.py:491-496 | a result with a raised severity is at least as risky |
| `Gate.RiskierNeverLowers` | app/services/runtime_governance.py:477-534 | under a rising policy a riskier result never gets a weaker outcome through the derived signals |
| `Governance.EveryRunIsSafe` | app/services/runtime_governance.py:123-474 | the invariant holds after every run of calls, failing ones included |
| `Governance.StepKeepsInvariant` | app/services/runtime_governance.py:123-474 | each committed call keeps status agreement, the candidate, the revision bounds, the accounts, the log and the lifecycle validator |
| `Governance.ResumeKeeps` | app/services/runtime_governance.py:407-474 | the resumed revision restores the invariant at its commit although it passes through an intermediate checkpoint |
| `Governance.PublishedOnlyWhenAllowed` | app/services/runtime_governance.py:182-303 | in every run a completed assessment publishes the checkpoint's candidate, never one the gate blocked, and one sent to review only after an approval |
| `Governance.CompletedHealth` | app/runtime/telemetry.py:67-78 | in every run a completed assessment's health is full or degraded, and degraded exactly when nobody approved it and the execution reports it itself |
| `Governance.DegradedGraphReportsFullHealth` | app/services/runtime_governance.py:139-235 | for any execution degraded in its graph retrieval alone the gate lists the degradation, and the assessment is completed at once, then with full health, exactly when `review_on_degraded_execution` is off, with an error code reported `review_on_insufficient_evidence` is off too, and nothing else about the candidate asks for review or a block |
| `Governance.UnavailableGraphNeedsBothSwitchesOff` | app/knowledge_graph/hybrid.py:49-77 | when the graph store is unavailable and the candidate has no risks: completed with full health with both switches off, otherwise waiting for review and reported so |
| `Governance.LogOfEveryRun` | app/services/runtime_governance.py:225-235 | the log chains from not-required to the stored status, is dated in order, numbers its revision requests 1 to n and has at most 2 * max_revisions + 2 entries |
| `Governance.FeedbackIsFound` | app/services/runtime_governance.py:389-405 | the feedback lookup finds every numbered request |
| `Governance.FeedbackIsTheNewestRequest` | app/services/runtime_governance.py:389-405 | while a revision is wanted the lookup returns the newest log entry and never fails |
| `Governance.TerminalIsFinal` | app/services/runtime_governance.py:572-576 | no call succeeds on a completed or failed assessment |
| `Governance.ReviewCallsExactlyWhenAllowed` | app/services/runtime_governance.py:275-430 | each review call succeeds exactly in its status, and a revision request exactly below the limit |
| `Governance.RunsContinue` | app/services/runtime_governance.py:432-461 | over any further calls the log and the telemetry events are only extended at the end, across resumption too |
| `Governance.WaitIsMeasured` | app/services/runtime_governance.py:407-657 | the human wait an approval, rejection, revision request or resumption records is the time since the last checkpoint within half a millisecond |
| `Governance.ApprovalPublishes` | app/services/runtime_governance.py:275-303 | the assessment is completed with the reviewed candidate and its execution, the checkpoint's candidate stays, and the log entry carries the reviewer, the comment and the gate's reasons |
| `Governance.RejectionWithdraws` | app/services/runtime_governance.py:305-338 | the assessment fails with its own code and no result, the checkpoint's candidate stays, and the log entry is the reviewer's |
| `Governance.RevisionRequestWaits` | app/services/runtime_governance.py:340-387 | assessment and candidate are untouched and one revision is counted |
| `Governance.CandidateIsGated` | app/services/runtime_governance.py:139-235 | the stored candidate is the submitted one under the gate's result on its own signals, which alone decides completed, failed or pending review |
| `Governance.ResumptionReplacesTheCandidate` | app/services/runtime_governance.py:407-474 | the new candidate stands under its own gate result in the same revision round, with one submission event |
| `Records.GateSettlesTheRow` | app/services/runtime_governance.py:182-207 | the gate's decision holds the row for review without a result, fails it with the code `runtime_risk_gate_blocked` and its message, or publishes the submitted result and execution at that time |
| `Records.CandidateIsTraced` | app/runtime/telemetry.py:67-121 | the telemetry of a candidate: its three events with component, status and start time, durations, review status and health |
| `Records.EndingIsRecorded` | app/runtime/telemetry.py:46-65 | the termination reason of each kind of execution |
| `Records.ApprovalIsRecorded` | app/services/runtime_governance.py:275-303 | an approval's completion time, checkpoint status, two trace events, total duration and audit entry |
| `Records.RejectionIsRecorded` | app/services/runtime_governance.py:305-338 | a rejection's code and message, checkpoint status, two trace events, termination reason and audit entry |
| `Records.RevisionRequestIsRecorded` | app/services/runtime_governance.py:340-387 | a revision request's checkpoint status, two trace events, total duration and audit entry |
| `Records.ResumptionIsTraced` | app/services/runtime_governance.py:432-461 | after a resumption the trace is the old one, the submission, and the new candidate's three events, with the new durations |
| `Records.GenerationIsRecorded` | app/repositories/assessments.py:59-199 | a created row is pending, a begun one processing, a failed one carries its code and message cut to 100 and 500 characters |
| `RuntimeReviews.ReviewTables.Create` | app/repositories/assessments.py:59-84 | the new row is pending; other assessments are untouched |
| `RuntimeReviews.ReviewTables.MarkProcessing` | app/repositories/assessments.py:126-134 | only the status and the update time change |
| `RuntimeReviews.ReviewTables.MarkCompleted` | app/repositories/assessments.py:136-157 | the result is published and any error cleared |
| `RuntimeReviews.ReviewTables.MarkPendingReview` | app/repositories/assessments.py:159-178 | result, error and completion time are withdrawn |
| `RuntimeReviews.ReviewTables.MarkFailed` | app/repositories/assessments.py:180-199 | only the truncated error code and message remain |
| `RuntimeReviews.ReviewTables.SaveState` | app/repositories/runtime_reviews.py:42-93 | the one checkpoint is created or overwritten, keeping its creation time |
| `RuntimeReviews.ReviewTables.AddReviewEvent` | app/repositories/runtime_reviews.py:136-173 | one event with its reviewer columns is appended to this assessment's log and no row changes |
| `RuntimeReviews.ReviewTables.ListReviewEvents` | app/repositories/runtime_reviews.py:175-182 | all events of the assessment in order |
| `RuntimeReviews.GovernanceService.ProcessCandidate` | app/services/runtime_governance.py:123-237 | gate, assessment row, telemetry, checkpoint and requested event, as the case function gives them |
| `RuntimeReviews.GovernanceService.Approve` | app/services/runtime_governance.py:275-303 | the approval step or its error on this case alone, all invariants kept, and a response that reports what is stored |
| `RuntimeReviews.GovernanceService.Reject` | app/services/runtime_governance.py:305-338 | the rejection step, likewise |
| `RuntimeReviews.GovernanceService.RequestRevision` | app/services/runtime_governance.py:340-387 | the revision request, likewise; its constant assessment status is the stored one |
| `RuntimeReviews.GovernanceService.GetRevisionFeedback` | app/services/runtime_governance.py:389-405 | the search from the newest event |
| `RuntimeReviews.GovernanceService.ResumeRevision` | app/services/runtime_governance.py:407-474 | the resumption with its two checkpoints, all invariants kept |
| `RuntimeReviews.GovernanceService.TelemetryAfterReview` | app/services/runtime_governance.py:628-657 | the wait, the review status, the health and two events at three readings of the clock |
| `RuntimeReviews.GovernanceService.GenerateAssessment` | app/services/assessments.py:180-361 | create, process, then fail or take the candidate: no step is out of order and all invariants are kept |
| `RuntimeReviews.GovernanceService.FinishProcessing` | app/services/assessments.py:298-361 | a generation error is persisted as a failure, a candidate goes through the gate |
| `Tools.ToolRegistry.Execute` | app/tools/registry.py:72-149 | unknown and invalid calls never reach a handler or the cache; a valid call is answered from the cache or run and stored |
| `Tools.ToolRegistry.RunHandler` | app/tools/registry.py:113-145 | timeouts, application errors and other exceptions become failure results, and timeouts are counted |
| `Tools.AgentToolPermissions.Execute` | app/tools/permissions.py:36-67 | unauthorised calls are refused before the registry |
| `Tools.OnlyPermittedRun` | app/tools/permissions.py:36-67 | a role's calls reach only its own tools, and no tool at all for the roles without permissions |
| `Tools.CacheIsInvisible` | app/tools/registry.py:94-149 | with deterministic tools and distinct fingerprints any call sequence gives the same results up to the cached flag, the same evidence and the same documents with and without the cache |
| `Tools.HandlersRunOnce` | app/tools/registry.py:108-149 | through the cache each distinct valid call runs its handler exactly once, without it every time |
| `Tools.EvidenceAccumulates` | app/graph/nodes.py:166-171 | accumulated evidence keeps what it holds, gains every chunk returned, and holds each chunk once |
| `Tools.MergeEvidence` | app/graph/nodes.py:166-168 | the loop over returned items gives that accumulation |
| `Tools.RefusedCalls` | app/tools/registry.py:72-106 | an unknown tool or refused arguments run nothing, leave the cache alone and give `unknown_tool` or `invalid_tool_arguments` |
| `Tools.AnsweredCalls` | app/tools/registry.py:106-149 | any other call returns the cached result, or its handler's next run with its own failure code for a timeout, an application error or a crash, stored under the fingerprint of the validated call |
| `Tools.UnauthorizedCalls` | app/tools/permissions.py:36-67 | only the evidence role reaches the registry, with its three tools; any other call is refused with `unauthorized_tool` |
| `Tools.EvidenceIsAppended` | app/graph/nodes.py:166-168 | item by item a chunk not held yet is appended, one held is dropped |
| `AgentGraph.EveryRunEnds` | app/graph/workflow.py:43-55 | for every agent at most 2 * min(max_steps, max_tool_calls) + 2 nodes run, history length equals calls used, and a synthesis has its reason already set |
| `AgentGraph.WalkEnds` | app/graph/nodes.py:48-202 | from any reachable position the remaining nodes are bounded by the remaining budget |
| `AgentGraph.VisitStaysOnTrack` | app/graph/nodes.py:48-261 | each node keeps step and call counts in line and uses up budget |
| `AgentGraph.RunSeesUncachedEvidence` | app/graph/nodes.py:137-191 | a run holds exactly the evidence and documents its calls give without a cache, with one handler run per distinct valid call |
| `AgentGraph.RunFollowsTheAgent` | app/graph/nodes.py:48-261 | for any agent, from a registry without earlier runs, each call is the one it asks for at that step, knowing the evidence, documents and history of the calls before it; each history entry tells of its call; the run stops as the agent decides unless a limit is reached, and the report is what the agent writes from everything returned |
| `AgentGraph.AcceptedRuns` | app/graph/workflow.py:105-121 | a run is accepted exactly when no error was set; each termination reason fixes the steps and calls used, and the fallback reason never shows |
| `AgentGraph.AgenticAssessmentWorkflow.Run` | app/graph/workflow.py:76-121 | invalid limits are refused; the outcome is that of walking as many nodes as the recursion limit allows, which falls short only below 2 * min(max_steps, max_tool_calls) + 2, never at the settings' minimum of 2 * max_steps + 3 |
| `AgentGraph.AgenticAssessmentWorkflow.Invoke` | app/graph/workflow.py:93-96 | the invocation loop against the node relation, for every recursion limit, with at most min(max_steps, max_tool_calls) handler runs |
| `EvidenceAgent.GatherIsBounded` | app/agents/evidence_agent.py:102-142 | at most min(max_steps, max_tool_calls) calls, only evidence tools run, and the reason and step count say exactly how the loop ended |
| `EvidenceAgent.GatheringFollowsTheModel` | app/agents/evidence_agent.py:102-142 | each call is the model's choice at that step, knowing what the calls before it returned, and the loop stops early only when the model does |
| `EvidenceAgent.CallIsRecorded` | app/agents/evidence_agent.py:119-140 | the history entry of a call carries the call's tool, keys and fingerprint and the result's success, summary and error code; an unknown document is appended |
| `EvidenceAgent.MergeAppendsWhatIsNew` | app/agents/evidence_agent.py:196-203 | what is held stays in place and the items whose chunk is not held follow in their order |
| `EvidenceAgent.OpenAIEvidenceAgent.Gather` | app/agents/evidence_agent.py:92-164 | the for loop with its else branch, and the outcome built from it |
| `EvidenceAgent.MergeObservations` | app/agents/evidence_agent.py:196-204 | only chunks held before the call are left out, and a document is added once |
| `EvidenceAgent.MergeIsDistinctExactlyWhen` | app/agents/evidence_agent.py:196-204 | merged chunks stay distinct exactly when the result lists no chunk twice that is not held already |
| `EvidenceAgent.RepeatedChunkIsHeldTwice` | app/agents/evidence_agent.py:196-204 | one result that lists a chunk twice puts it into the evidence twice |
| `EvidenceAgent.GatheredEvidenceIsDistinct` | app/agents/evidence_agent.py:102-142 | if every tool result lists each chunk once, so does the evidence at the end of every gathering, cached results included |
| `EvidenceAgent.SanitizeBrief` | app/agents/evidence_agent.py:212-244 | the filtering loop gives the sanitised brief |
| `EvidenceAgent.BriefIsGrounded` | app/agents/evidence_agent.py:212-244 | the brief passes the schema's provenance validator, cites only what was observed, and drops exactly the claims without observed support |
| `EvidenceAgent.SupportIsKept` | app/agents/evidence_agent.py:212-244 | item by item, one with some observed support keeps its claim and all its observed ids, any other is dropped |
| `Retry.RunWithRetry` | app/runtime/resilience.py:34-57 | the outcome of the first attempt that succeeds, fails for good or is the last of max_retries + 1; one notice and one sleep per retry |
| `Retry.TotalSleepIsBounded` | app/runtime/resilience.py:52-56 | r retries sleep at most (1 + jitter) * min(r * max_delay, base * (2^r - 1)) ms |
| `Retry.BoundIsMet` | app/runtime/resilience.py:52-56 | without jitter and below the cap that bound is the exact total |
| `Retry.RetriedExactlyWhen` | app/runtime/resilience.py:16-57 | timeouts and connection failures are retried, by kind or by name, and nothing else |
| `Retry.DelaysDouble` | app/runtime/resilience.py:52-56 | the delays double from the base up to the cap, and jitter adds its share of them |
| `Pareto.ScanClaims` | app/evaluation/assessment/evaluators.py:39-68 | the claim loop collects exactly the claims without valid support, those missing a required citation, and those citing nothing allowed |
| `Pareto.EvaluatorLeavesUndefined` | app/evaluation/assessment/evaluators.py:116-137 | seven metrics are always defined; severity exactly with positive recall, over-engineering by case alone, the two claim rates together, preservation only with transparency |
| `Pareto.OneClaimIsSupported` | app/evaluation/assessment/evaluators.py:44-168 | a claim is unsupported unless it has a requirement and a support of an allowed source that names what the requirement allows for that source |
| `Pareto.CoverageScoresMean` | app/evaluation/assessment/evaluators.py:116-132 | recall, precision, control, governance and architecture coverage are one or zero exactly when the expected and the found sets say so |
| `Pareto.JudgementScoresMean` | app/evaluation/assessment/evaluators.py:119-134 | exactly when severity agreement and oversight accuracy are one, over-engineering avoidance is zero, groundedness is one and the unsupported-claim rate zero |
| `Pareto.ConductScoresMean` | app/evaluation/assessment/evaluators.py:171-201 | exactly when abstention, preservation of important findings and transparency of the synthesis are one |
| `Pareto.ComputeDominates` | app/evaluation/assessment/reports.py:145-163 | the collected pairs decide dominance over the metrics both sides define |
| `Pareto.ParetoModes` | app/evaluation/assessment/reports.py:132-142 | the successful modes no other mode dominates, in order |
| `Pareto.DominanceIsAsymmetric` | app/evaluation/assessment/reports.py:145-163 | two results never dominate each other |
| `Pareto.OneMetricDecides` | app/evaluation/assessment/reports.py:145-163 | between results that differ in one defined metric the dominating one has the lower rate of unsupported claims, or the higher value of any other metric |
| `Pareto.FewerUnsupportedDominates` | app/evaluation/assessment/reports.py:145-163 | of two outputs that differ in their claims alone, as many of them, the one with fewer unsupported claims dominates |
| `Pareto.ExcludedIsDominatedByFrontier` | app/evaluation/assessment/reports.py:132-163 | with equal support every excluded mode is dominated by one that stays |
| `Pareto.NoCycleOfThree` | app/evaluation/assessment/reports.py:145-163 | results with the evaluator's pattern of undefined metrics never dominate in a circle |
| `Pareto.FrontierIsNonEmpty` | app/evaluation/assessment/reports.py:132-142 | some mode is named best exactly when some mode succeeded, even with differing support |
| `Pareto.ArbitrarySupportCanEmptyTheFrontier` | app/evaluation/assessment/reports.py:132-163 | without the evaluator's pattern three successful modes can leave nobody on the frontier |

## Left out

- GetNeighborhood: does not model the orders by name and by identifier text in which related entities, relationships, mentions and evidence are returned; membership is exact.
- Ingest: does not model the metadata beyond page and section, row timestamps or database errors; the content of a file upload is taken as the join of its segments. A chunk size or overlap that the settings refuse is rolled back here; in the code that error escapes and the uncommitted row is dropped with its session.
- StepKeepsInvariant: creating, beginning, failing and finishing an assessment are steps only in the order in which the assessment service calls them; the repository methods themselves do not look at the status.
- Run: reads a recursion limit conservatively, as reached once that many nodes have run.
- Execute: does not model the duration metrics of tool calls; argument keys are a set instead of a sorted list.
- SearchGraph: keeps the source documents and chunks as sets instead of lists sorted by their text, and does not model the rollback after a database error.
- Gather: does not model graph neighbourhoods and their aggregated metadata.
- SanitizeBrief: keeps the retrieved identifiers as sets instead of lists sorted by their text.
- ProcessCandidate: does not model counters, costs, token usage, request identifiers and metrics of the telemetry, nor its exporter.
- Evaluating a case without runtime governance (`app/services/assessments.py:337-342`), where a result is completed without a checkpoint.
- Matching a query against entity names, the vector and hybrid retrieval, and the merging of their results: easy members next to the traversal.
- The multi-agent fan-out, the execution router, prompts and the read models.
- The agent trace, which only grows.
- The schema layer strips segment texts with its own idea of whitespace before they are stored; segments are taken as stored, and the placement theorem holds for any segments.
- The evaluator's other observation lists, aggregation over cases and the trade-off sentences: reporting.
- Threads behind `run_with_timeout`: a timeout is one more ending of a handler.
- HTTP routes, authentication, settings other than the recursion-limit inequality, migrations, observability adapters and the frontend.
