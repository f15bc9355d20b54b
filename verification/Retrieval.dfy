/**
  `get_neighborhood` with its records and `GraphRetrievalService.search`: traversed edges are returned
  with both entity names and the document that owns the source chunk.
*/
module Retrieval {
  import opened Collections
  import opened GraphStore
  import opened Traversal
  import opened Wrappers

  datatype Evidence = Evidence(chunkId: ChunkId, documentId: DocumentId, documentTitle: string, content: string)

  datatype TraversalData = TraversalData(
    matched: seq<Entity>, related: seq<Entity>, relationships: seq<Relationship>, mentions: seq<Mention>,
    evidence: map<ChunkId, Evidence>, depthUsed: nat)

  datatype GroundedRelationship = GroundedRelationship(
    relationshipId: RelationshipId, sourceId: EntityId, sourceName: string, targetId: EntityId, targetName: string,
    kind: RelationshipType, description: Option<string>, confidence: real,
    documentId: DocumentId, chunkId: ChunkId)

  function Where<R(!new)>(rows: seq<R>, keep: R -> bool): (kept: seq<R>)
    ensures forall row :: row in kept <==> row in rows && keep(row)
  {
    if rows == [] then []
    else if keep(rows[0]) then [rows[0]] + Where(rows[1..], keep) else Where(rows[1..], keep)
  }

  // A dictionary of rows by id.
  function ById(rows: seq<Entity>): (byId: map<EntityId, Entity>)
    ensures forall id | id in byId :: byId[id] in rows && byId[id].id == id
    ensures forall row | row in rows :: row.id in byId
  {
    if rows == [] then map[]
    else
      var n := |rows| - 1;
      assert rows == rows[..n] + [rows[n]];
      ById(rows[..n])[rows[n].id := rows[n]]
  }

  // The rows of the given ids, in the order of the ids, skipping ids without a row.
  function Lookup(byId: map<EntityId, Entity>, ids: seq<EntityId>): (rows: seq<Entity>)
    ensures forall row :: row in rows <==> exists id | id in ids :: id in byId && byId[id] == row
  {
    if ids == [] then []
    else
      var rest := Lookup(byId, ids[1..]);
      assert forall id :: id in ids <==> id == ids[0] || id in ids[1..];
      if ids[0] in byId then [byId[ids[0]]] + rest else rest
  }

  // `_load_graph_evidence`: chunks joined with their documents.
  function LoadEvidence(g: Graph, chunkIds: set<ChunkId>): map<ChunkId, Evidence> {
    map c | c in chunkIds && c in g.chunks && g.chunks[c].documentId in g.documents ::
      Evidence(c, g.chunks[c].documentId, g.documents[g.chunks[c].documentId].title, g.chunks[c].content)
  }

  function Traverse(g: Graph, seeds: seq<EntityId>, bounds: Bounds): TraversalData {
    var search := Neighborhood(g.relationships, seeds, bounds);
    var orderedSeeds := OrderedSeeds(seeds, bounds.maxEntities);
    var entityModels := Where(g.entities, (row: Entity) => row.id in search.visited);
    var mentions := Where(g.mentions, (row: Mention) => row.entityId in search.visited);
    var relationships := Where(g.relationships, (row: Relationship) => row.id in search.found);
    var chunkIds := (set mention | mention in mentions :: mention.chunkId)
                    + (set relationship | relationship in relationships :: relationship.chunkId);
    TraversalData(
      Lookup(ById(entityModels), orderedSeeds),
      Where(entityModels, (row: Entity) => row.id !in orderedSeeds),
      relationships, mentions, LoadEvidence(g, chunkIds), search.depthUsed)
  }

  method GetNeighborhood(store: KnowledgeGraphStore, seeds: seq<EntityId>, bounds: Bounds) returns (data: TraversalData)
    ensures data == Traverse(store.View(), seeds, bounds)
  {
    hide Neighborhood, Where, ById, Lookup;
    var g := store.View();
    var search := Explore(g.relationships, seeds, bounds);
    var orderedSeeds := OrderedSeeds(seeds, bounds.maxEntities);
    var entityModels := Where(g.entities, (row: Entity) => row.id in search.visited);
    var mentions := Where(g.mentions, (row: Mention) => row.entityId in search.visited);
    var relationships := Where(g.relationships, (row: Relationship) => row.id in search.found);
    var chunkIds := (set mention | mention in mentions :: mention.chunkId)
                    + (set relationship | relationship in relationships :: relationship.chunkId);
    data := TraversalData(
      Lookup(ById(entityModels), orderedSeeds),
      Where(entityModels, (row: Entity) => row.id !in orderedSeeds),
      relationships, mentions, LoadEvidence(g, chunkIds), search.depthUsed);
  }

  // ---- Mapping traversed edges to grounded relationships ----

  // `None` is the `continue` of the loop.
  function Ground(entities: map<EntityId, Entity>, evidence: map<ChunkId, Evidence>, edge: Relationship)
    : Option<GroundedRelationship> {
    if edge.source !in entities || edge.target !in entities || edge.chunkId !in evidence then None
    else
      var source, target, provenance := entities[edge.source], entities[edge.target], evidence[edge.chunkId];
      Some(GroundedRelationship(edge.id, source.id, source.canonicalName, target.id, target.canonicalName,
                                edge.kind, edge.description, edge.confidence, provenance.documentId, provenance.chunkId))
  }

  function GroundAll(entities: map<EntityId, Entity>, evidence: map<ChunkId, Evidence>, edges: seq<Relationship>)
    : seq<GroundedRelationship> {
    if edges == [] then []
    else
      var n := |edges| - 1;
      var before := GroundAll(entities, evidence, edges[..n]);
      match Ground(entities, evidence, edges[n])
      case None => before
      case Some(grounded) => before + [grounded]
  }

  function ResolvedDepth(requested: Option<nat>, maxDepth: nat): nat {
    var wanted := if requested.None? || requested.value == 0 then maxDepth else requested.value;
    if wanted <= maxDepth then wanted else maxDepth
  }

  // The source documents and chunks are sets: their order is that of their texts.
  datatype Found = Found(
    data: TraversalData, relationships: seq<GroundedRelationship>, documentIds: set<DocumentId>, chunkIds: set<ChunkId>)

  function SourceDocuments(evidence: map<ChunkId, Evidence>): set<DocumentId> {
    set chunkId | chunkId in evidence :: evidence[chunkId].documentId
  }

  // The whole search for entities that matched the query.
  function SearchResult(g: Graph, matches: seq<Entity>, requested: Option<nat>, bounds: Bounds): Option<Found> {
    if matches == [] then None
    else
      var data := Traverse(g, EntityIds(matches), bounds.(maxDepth := ResolvedDepth(requested, bounds.maxDepth)));
      Some(Found(data, GroundAll(ById(data.matched + data.related), data.evidence, data.relationships),
                 SourceDocuments(data.evidence), data.evidence.Keys))
  }

  /** The search; `matches` is the result of the name matching, `None` an empty neighborhood. */
  method SearchGraph(store: KnowledgeGraphStore, matches: seq<Entity>, requested: Option<nat>, bounds: Bounds)
    returns (result: Option<Found>)
    ensures result == SearchResult(store.View(), matches, requested, bounds)
  {
    hide Traverse, ById;
    var resolvedDepth := ResolvedDepth(requested, bounds.maxDepth);
    if matches == [] {
      return None;
    }
    var traversal := GetNeighborhood(store, EntityIds(matches), bounds.(maxDepth := resolvedDepth));
    var entities := ById(traversal.matched + traversal.related);
    var edges := traversal.relationships;
    var relationships: seq<GroundedRelationship> := [];
    for i := 0 to |edges|
      invariant relationships == GroundAll(entities, traversal.evidence, edges[..i])
    {
      assert edges[..i + 1][..i] == edges[..i] && edges[..i + 1][i] == edges[i];
      var edge := edges[i];
      if edge.source !in entities || edge.target !in entities || edge.chunkId !in traversal.evidence {
        continue;
      }
      var source, target := entities[edge.source], entities[edge.target];
      var provenance := traversal.evidence[edge.chunkId];
      relationships := relationships + [GroundedRelationship(
        edge.id, source.id, source.canonicalName, target.id, target.canonicalName,
        edge.kind, edge.description, edge.confidence, provenance.documentId, provenance.chunkId)];
    }
    assert edges[..|edges|] == edges;
    result := Some(Found(traversal, relationships, SourceDocuments(traversal.evidence), traversal.evidence.Keys));
  }

  // ---- Nothing traversed is dropped ----

  lemma {:induction false} AllGrounded(entities: map<EntityId, Entity>, evidence: map<ChunkId, Evidence>, edges: seq<Relationship>)
    requires forall edge | edge in edges :: Ground(entities, evidence, edge).Some?
    ensures var grounded := GroundAll(entities, evidence, edges);
      && |grounded| == |edges|
      && forall i | 0 <= i < |edges| :: Some(grounded[i]) == Ground(entities, evidence, edges[i])
  {
    hide Ground;
    if edges != [] {
      var n := |edges| - 1;
      AllGrounded(entities, evidence, edges[..n]);
      assert edges[n] in edges;
    }
  }

  // The names and the owner of an edge, straight from the tables.
  ghost predicate GroundedIn(g: Graph, edge: Relationship, grounded: GroundedRelationship) {
    && grounded.relationshipId == edge.id && grounded.kind == edge.kind
    && grounded.description == edge.description && grounded.confidence == edge.confidence
    && grounded.sourceId == edge.source && grounded.targetId == edge.target && grounded.chunkId == edge.chunkId
    && (exists row | row in g.entities :: row.id == edge.source && row.canonicalName == grounded.sourceName)
    && (exists row | row in g.entities :: row.id == edge.target && row.canonicalName == grounded.targetName)
    && edge.chunkId in g.chunks && grounded.documentId == g.chunks[edge.chunkId].documentId
  }

  lemma IdHasRow(rows: seq<Entity>, id: EntityId)
    requires id in EntityIds(rows)
    ensures exists row | row in rows :: row.id == id
  {
    var i :| 0 <= i < |rows| && EntityIds(rows)[i] == id;
    assert rows[i] in rows;
  }

  lemma SameIdSameRow(rows: seq<Entity>, a: Entity, b: Entity)
    requires Distinct(EntityIds(rows)) && a in rows && b in rows && a.id == b.id
    ensures a == b
  {
    var i, j :| 0 <= i < |rows| && 0 <= j < |rows| && rows[i] == a && rows[j] == b;
    assert EntityIds(rows)[i] == EntityIds(rows)[j];
  }

  // Every visited entity with a row is returned, as matched or as related.
  lemma VisitedIsReturned(g: Graph, seeds: seq<EntityId>, bounds: Bounds, row: Entity)
    requires Distinct(EntityIds(g.entities)) && row in g.entities
    requires row.id in Neighborhood(g.relationships, seeds, bounds).visited
    ensures var data := Traverse(g, seeds, bounds); row in data.matched + data.related
  {
    hide Neighborhood;
    var search := Neighborhood(g.relationships, seeds, bounds);
    var orderedSeeds := OrderedSeeds(seeds, bounds.maxEntities);
    var entityModels := Where(g.entities, (r: Entity) => r.id in search.visited);
    assert row in entityModels;
    if row.id in orderedSeeds {
      var byId := ById(entityModels);
      SameIdSameRow(g.entities, byId[row.id], row);
      assert row in Lookup(byId, orderedSeeds);
    }
  }

  // A visited entity is found under its id.
  lemma EndpointIsReturned(g: Graph, seeds: seq<EntityId>, bounds: Bounds, id: EntityId)
    requires Distinct(EntityIds(g.entities)) && id in EntityIds(g.entities)
    requires id in Neighborhood(g.relationships, seeds, bounds).visited
    ensures var data := Traverse(g, seeds, bounds);
      var entities := ById(data.matched + data.related);
      id in entities && entities[id].id == id && entities[id] in g.entities
  {
    hide Neighborhood, Traverse, Distinct;
    var data := Traverse(g, seeds, bounds);
    IdHasRow(g.entities, id);
    var row :| row in g.entities && row.id == id;
    VisitedIsReturned(g, seeds, bounds, row);
    ReturnedIsStored(g, seeds, bounds);
    assert row in data.matched + data.related;
  }

  // An edge of the traversal can always be grounded.
  lemma EdgeIsGrounded(g: Graph, seeds: seq<EntityId>, bounds: Bounds, edge: Relationship)
    requires Sound(g) && edge in Traverse(g, seeds, bounds).relationships
    ensures var data := Traverse(g, seeds, bounds);
      var grounded := Ground(ById(data.matched + data.related), data.evidence, edge);
      grounded.Some? && GroundedIn(g, edge, grounded.value)
  {
    hide Neighborhood, Sound, Traverse, ById, Distinct;
    FoundEdge(g, seeds, bounds, edge);
    EdgeIsSound(g, edge);
    EndpointIsReturned(g, seeds, bounds, edge.source);
    EndpointIsReturned(g, seeds, bounds, edge.target);
    EvidenceOfEdge(g, seeds, bounds, edge);
  }

  lemma EdgeIsSound(g: Graph, edge: Relationship)
    requires Sound(g) && edge in g.relationships
    ensures SoundRelationship(g, edge) && Distinct(EntityIds(g.entities))
    ensures g.chunks[edge.chunkId].documentId in g.documents
  {
    var i :| 0 <= i < |g.relationships| && g.relationships[i] == edge;
  }

  lemma FoundEdge(g: Graph, seeds: seq<EntityId>, bounds: Bounds, edge: Relationship)
    requires Sound(g) && edge in Traverse(g, seeds, bounds).relationships
    ensures var visited := Neighborhood(g.relationships, seeds, bounds).visited;
      edge in g.relationships && edge.source in visited && edge.target in visited
  {
    hide After, Lookup, ById, LoadEvidence;
    var search := Neighborhood(g.relationships, seeds, bounds);
    SearchWithinBounds(g.relationships, seeds, bounds, bounds.maxDepth);
    assert GoodEdge(g.relationships, search, bounds, edge.id);
    DistinctIdsDistinctRows(g.relationships);
    assert search.found[edge.id] == edge;
  }

  lemma ReturnedIsStored(g: Graph, seeds: seq<EntityId>, bounds: Bounds)
    ensures var data := Traverse(g, seeds, bounds);
      forall row | row in data.matched + data.related :: row in g.entities
  {
    hide Neighborhood, LoadEvidence;
  }

  lemma EvidenceOfEdge(g: Graph, seeds: seq<EntityId>, bounds: Bounds, edge: Relationship)
    requires edge in Traverse(g, seeds, bounds).relationships
    requires edge.chunkId in g.chunks && g.chunks[edge.chunkId].documentId in g.documents
    ensures var evidence := Traverse(g, seeds, bounds).evidence;
      && edge.chunkId in evidence && evidence[edge.chunkId].chunkId == edge.chunkId
      && evidence[edge.chunkId].documentId == g.chunks[edge.chunkId].documentId
  {
    hide Neighborhood, Lookup, ById;
  }

  /**
    On sound tables the search returns every traversed edge, in order, with the names of both its
    endpoints and the document that owns its source chunk.
  */
  lemma NoTraversedEdgeIsDropped(g: Graph, matches: seq<Entity>, requested: Option<nat>, bounds: Bounds)
    requires Sound(g) && matches != []
    ensures var found := SearchResult(g, matches, requested, bounds).value;
      && |found.relationships| == |found.data.relationships|
      && forall i | 0 <= i < |found.relationships| ::
           && GroundedIn(g, found.data.relationships[i], found.relationships[i])
           && found.relationships[i].documentId in found.documentIds && found.relationships[i].chunkId in found.chunkIds
  {
    hide Traverse, Ground, GroundAll, ById, Sound, GroundedIn;
    var found := SearchResult(g, matches, requested, bounds).value;
    var seeds, depthBounds := EntityIds(matches), bounds.(maxDepth := ResolvedDepth(requested, bounds.maxDepth));
    var edges := found.data.relationships;
    var entities := ById(found.data.matched + found.data.related);
    forall edge | edge in edges ensures Ground(entities, found.data.evidence, edge).Some? {
      EdgeIsGrounded(g, seeds, depthBounds, edge);
    }
    AllGrounded(entities, found.data.evidence, edges);
    forall i | 0 <= i < |edges|
      ensures GroundedIn(g, edges[i], found.relationships[i])
      ensures found.relationships[i].documentId in found.documentIds && found.relationships[i].chunkId in found.chunkIds
    {
      EdgeIsGrounded(g, seeds, depthBounds, edges[i]);
      SourceIsListed(g, seeds, depthBounds, edges[i]);
    }
  }

  // The document and the chunk of a grounded edge are among the evidence's.
  lemma SourceIsListed(g: Graph, seeds: seq<EntityId>, bounds: Bounds, edge: Relationship)
    requires Sound(g) && edge in Traverse(g, seeds, bounds).relationships
    ensures var data := Traverse(g, seeds, bounds);
      var grounded := Ground(ById(data.matched + data.related), data.evidence, edge);
      grounded.Some? ==> grounded.value.documentId in SourceDocuments(data.evidence) && grounded.value.chunkId in data.evidence
  {
    FoundEdge(g, seeds, bounds, edge);
    EdgeIsSound(g, edge);
    EvidenceOfEdge(g, seeds, bounds, edge);
    hide Traverse, ById, Sound;
  }

  /** At most `max_entities` entities are returned, and every returned edge has both endpoints among them. */
  lemma ReturnedWithinBounds(g: Graph, seeds: seq<EntityId>, bounds: Bounds)
    requires Sound(g)
    ensures var data := Traverse(g, seeds, bounds);
      var returned := ReturnedIds(data);
      && |returned| <= bounds.maxEntities
      && forall edge | edge in data.relationships :: edge.source in returned && edge.target in returned
                                                     && edge.confidence >= bounds.minConfidence
  {
    hide After, LoadEvidence;
    var data := Traverse(g, seeds, bounds);
    var search := Neighborhood(g.relationships, seeds, bounds);
    var returned := ReturnedIds(data);
    SearchWithinBounds(g.relationships, seeds, bounds, bounds.maxDepth);
    assert returned <= search.visited;
    SubsetIsSmaller(returned, search.visited);
    forall edge | edge in data.relationships
      ensures edge.source in returned && edge.target in returned && edge.confidence >= bounds.minConfidence
    {
      FoundEdge(g, seeds, bounds, edge);
      EdgeIsSound(g, edge);
      IdHasRow(g.entities, edge.source);
      IdHasRow(g.entities, edge.target);
      var source :| source in g.entities && source.id == edge.source;
      var target :| target in g.entities && target.id == edge.target;
      VisitedIsReturned(g, seeds, bounds, source);
      VisitedIsReturned(g, seeds, bounds, target);
      assert GoodEdge(g.relationships, search, bounds, edge.id);
      DistinctIdsDistinctRows(g.relationships);
    }
  }

  // ---- Completeness of what is returned ----

  ghost function ReturnedIds(data: TraversalData): set<EntityId> {
    set row | row in data.matched + data.related :: row.id
  }

  ghost function ReturnedEdges(data: TraversalData): set<Relationship> {
    set edge | edge in data.relationships
  }

  lemma {:induction false} WithinStored(edges: set<Relationship>, ids: set<EntityId>, k: nat, stored: set<EntityId>)
    requires ids <= stored && forall edge | edge in edges :: edge.source in stored && edge.target in stored
    ensures Within(edges, ids, k) <= stored
  {
    if k > 0 {
      WithinStored(edges, ids, k - 1, stored);
    }
  }

  lemma SoundRows(g: Graph)
    requires Sound(g)
    ensures DistinctRows(g.relationships) && NoSelfEdges(g.relationships) && Distinct(EntityIds(g.entities))
    ensures forall edge | edge in g.relationships :: edge.source in EntityIds(g.entities) && edge.target in EntityIds(g.entities)
  {
    DistinctIdsDistinctRows(g.relationships);
    forall edge | edge in g.relationships
      ensures edge.source in EntityIds(g.entities) && edge.target in EntityIds(g.entities) && edge.source != edge.target
    {
      EdgeIsSound(g, edge);
    }
  }

  lemma ToSetMembers(ids: seq<EntityId>)
    ensures forall id :: id in ToSet(ids) <==> id in ids
  {
  }

  // Every visited entity has a row.
  lemma VisitedIsStored(g: Graph, seeds: seq<EntityId>, bounds: Bounds)
    requires Sound(g) && forall seed | seed in seeds :: seed in EntityIds(g.entities)
    ensures forall id | id in Neighborhood(g.relationships, seeds, bounds).visited :: id in EntityIds(g.entities)
  {
    hide Sound, After, Within, OrderedSeeds, EntityIds, ToSet, Distinct;
    SoundRows(g);
    var search := Neighborhood(g.relationships, seeds, bounds);
    var start := ToSet(OrderedSeeds(seeds, bounds.maxEntities));
    var stored := ToSet(EntityIds(g.entities));
    ToSetMembers(EntityIds(g.entities));
    ToSetMembers(seeds);
    SeedsWithinBounds(seeds, bounds.maxEntities);
    EveryEntityIsJoined(g.relationships, seeds, bounds, bounds.maxDepth);
    forall edge | edge in search.found.Values ensures edge.source in stored && edge.target in stored {
      var id :| id in search.found && search.found[id] == edge;
      assert edge in g.relationships;
    }
    WithinStored(search.found.Values, start, search.depthUsed, stored);
  }

  // The rows returned are those of the search, no more and no fewer.
  lemma ReturnedIsVisited(g: Graph, seeds: seq<EntityId>, bounds: Bounds)
    requires Sound(g) && forall seed | seed in seeds :: seed in EntityIds(g.entities)
    ensures var data, search := Traverse(g, seeds, bounds), Neighborhood(g.relationships, seeds, bounds);
      ReturnedIds(data) == search.visited && data.depthUsed == search.depthUsed
  {
    hide Sound, Neighborhood, Within, OrderedSeeds, EntityIds, Distinct, LoadEvidence;
    SoundRows(g);
    VisitedIsStored(g, seeds, bounds);
    var data, search := Traverse(g, seeds, bounds), Neighborhood(g.relationships, seeds, bounds);
    forall id | id in search.visited ensures id in ReturnedIds(data) {
      IdHasRow(g.entities, id);
      var row :| row in g.entities && row.id == id;
      VisitedIsReturned(g, seeds, bounds, row);
    }
    assert forall row | row in data.matched + data.related :: row.id in search.visited;
  }

  lemma ReturnedEdgesAreFound(g: Graph, seeds: seq<EntityId>, bounds: Bounds)
    requires Sound(g)
    ensures ReturnedEdges(Traverse(g, seeds, bounds)) == Neighborhood(g.relationships, seeds, bounds).found.Values
  {
    hide Sound, After, Within, OrderedSeeds, EntityIds, Distinct, LoadEvidence, ById, Lookup;
    SoundRows(g);
    EveryEntityIsJoined(g.relationships, seeds, bounds, bounds.maxDepth);
    var data, search := Traverse(g, seeds, bounds), Neighborhood(g.relationships, seeds, bounds);
    forall edge ensures edge in data.relationships <==> edge in search.found.Values {
      if edge in data.relationships {
        assert edge in g.relationships && search.found[edge.id] in g.relationships && search.found[edge.id].id == edge.id;
        assert search.found[edge.id] == edge;
      }
      if edge in search.found.Values {
        var id :| id in search.found && search.found[id] == edge;
        assert edge in g.relationships && edge.id == id;
      }
    }
  }

  /**
    On sound tables and for stored seeds, with no layer cut off by the row limit: the entities returned are exactly
    those within max_depth hops when they fit the budget, and then the edges are exactly those touching an entity
    within max_depth - 1 hops.
  */
  lemma ReturnedIsComplete(g: Graph, seeds: seq<EntityId>, bounds: Bounds)
    requires Sound(g) && forall seed | seed in seeds :: seed in EntityIds(g.entities)
    requires NoLayerTruncated(g.relationships, seeds, bounds)
    ensures var data, strong := Traverse(g, seeds, bounds), Strong(g.relationships, bounds.minConfidence);
      var all := Within(strong, ToSet(seeds), bounds.maxDepth);
      && (ReturnedIds(data) == all <==> |all| <= bounds.maxEntities)
      && (|ReturnedIds(data)| < bounds.maxEntities ==> ReturnedIds(data) == all)
      && (|all| <= bounds.maxEntities ==>
            ReturnedEdges(data) == if bounds.maxDepth == 0 then {}
                                   else EdgesAt(strong, Within(strong, ToSet(seeds), bounds.maxDepth - 1)))
  {
    hide Sound, Traverse, Neighborhood, Within, Strong, EdgesAt, ReturnedIds, ReturnedEdges, NoLayerTruncated, EntityIds;
    SoundRows(g);
    ReturnedIsVisited(g, seeds, bounds);
    ReturnedEdgesAreFound(g, seeds, bounds);
    CompleteUnlessFull(g.relationships, seeds, bounds);
  }

  /** Truncated or not, each entity returned is within depth_used returned edges of a seed. */
  lemma ReturnedIsJoined(g: Graph, seeds: seq<EntityId>, bounds: Bounds)
    requires Sound(g) && forall seed | seed in seeds :: seed in EntityIds(g.entities)
    ensures var data := Traverse(g, seeds, bounds);
      ReturnedIds(data) <= Within(ReturnedEdges(data), ToSet(OrderedSeeds(seeds, bounds.maxEntities)), data.depthUsed)
  {
    hide Sound, Traverse, After, Within, ReturnedIds, ReturnedEdges, EntityIds, OrderedSeeds;
    SoundRows(g);
    ReturnedIsVisited(g, seeds, bounds);
    ReturnedEdgesAreFound(g, seeds, bounds);
    EveryEntityIsJoined(g.relationships, seeds, bounds, bounds.maxDepth);
  }

  // ---- What is returned beside the edges ----

  /** On sound tables the mentions are those of the returned entities, the evidence the chunks of those and of the edges. */
  lemma SourcesAreExactly(g: Graph, seeds: seq<EntityId>, bounds: Bounds, c: ChunkId)
    requires Sound(g) && forall seed | seed in seeds :: seed in EntityIds(g.entities)
    ensures var data := Traverse(g, seeds, bounds);
      && (forall mention :: mention in data.mentions <==> mention in g.mentions && mention.entityId in ReturnedIds(data))
      && (c in data.evidence <==>
            || (exists mention | mention in data.mentions :: mention.chunkId == c)
            || (exists edge | edge in data.relationships :: edge.chunkId == c))
      && (c in data.evidence ==>
            && c in g.chunks && g.chunks[c].documentId in g.documents
            && data.evidence[c].chunkId == c && data.evidence[c].documentId == g.chunks[c].documentId
            && data.evidence[c].documentTitle == g.documents[g.chunks[c].documentId].title
            && data.evidence[c].content == g.chunks[c].content)
  {
    hide Sound, Neighborhood, Lookup, ById, Where, EntityIds, ReturnedIds;
    ReturnedIsVisited(g, seeds, bounds);
    var data, visited := Traverse(g, seeds, bounds), Neighborhood(g.relationships, seeds, bounds).visited;
    assert forall mention :: mention in data.mentions <==> mention in g.mentions && mention.entityId in visited;
    assert forall edge | edge in data.relationships :: edge in g.relationships;
    forall edge | edge in data.relationships ensures edge.chunkId in g.chunks && g.chunks[edge.chunkId].documentId in g.documents {
      EdgeIsSound(g, edge);
    }
    forall mention | mention in data.mentions
      ensures mention.chunkId in g.chunks && g.chunks[mention.chunkId].documentId in g.documents
    {
      MentionIsSound(g, mention);
    }
  }

  lemma MentionIsSound(g: Graph, mention: Mention)
    requires Sound(g) && mention in g.mentions
    ensures mention.chunkId in g.chunks && g.chunks[mention.chunkId].documentId in g.documents
  {
    var i :| 0 <= i < |g.mentions| && g.mentions[i] == mention;
    assert SoundMention(g, g.mentions[i]);
  }

  /** A search goes as deep as asked, but no deeper than the limit; not asked, or for zero, it goes to the limit. */
  lemma DepthIsResolved(g: Graph, matches: seq<Entity>, requested: Option<nat>, bounds: Bounds, depth: nat)
    requires matches != [] && depth <= bounds.maxDepth
    requires match requested
      case None => depth == bounds.maxDepth
      case Some(wanted) => if wanted == 0 || wanted > bounds.maxDepth then depth == bounds.maxDepth else depth == wanted
    ensures var data := SearchResult(g, matches, requested, bounds).value.data;
      data == Traverse(g, EntityIds(matches), bounds.(maxDepth := depth)) && data.depthUsed <= depth
  {
    hide Traverse, ById, GroundAll;
    SearchDepth(g, EntityIds(matches), bounds.(maxDepth := depth));
  }

  lemma SearchDepth(g: Graph, seeds: seq<EntityId>, bounds: Bounds)
    ensures Traverse(g, seeds, bounds).depthUsed <= bounds.maxDepth
  {
    hide Where, Lookup, ById, LoadEvidence;
    DepthUsedCountsRounds(g.relationships, seeds, bounds, bounds.maxDepth);
  }

  lemma {:induction false} LookupKeepsOrder(byId: map<EntityId, Entity>, rows: seq<Entity>)
    requires forall i | 0 <= i < |rows| :: rows[i].id in byId && byId[rows[i].id] == rows[i]
    ensures Lookup(byId, EntityIds(rows)) == rows
  {
    if rows != [] {
      assert EntityIds(rows)[1..] == EntityIds(rows[1..]);
      LookupKeepsOrder(byId, rows[1..]);
    }
  }

  /** The matches of a query come back as they are, in their order, and nothing related is one of them. */
  lemma MatchesAreReturned(g: Graph, matches: seq<Entity>, requested: Option<nat>, bounds: Bounds)
    requires Sound(g) && matches != [] && |matches| <= bounds.maxEntities
    requires Distinct(EntityIds(matches)) && forall row | row in matches :: row in g.entities
    ensures var data := SearchResult(g, matches, requested, bounds).value.data;
      && data.matched == matches
      && forall row | row in data.related :: row in g.entities && row.id !in EntityIds(matches)
  {
    hide Sound, After, LoadEvidence, GroundAll, ById, Where, Lookup, ResolvedDepth, OrderedSeeds, EntityIds, Distinct;
    var seeds, depthBounds := EntityIds(matches), bounds.(maxDepth := ResolvedDepth(requested, bounds.maxDepth));
    var search := Neighborhood(g.relationships, seeds, depthBounds);
    var entityModels := Where(g.entities, (row: Entity) => row.id in search.visited);
    EntityIdsCount(matches);
    SeedsInOrder(seeds, bounds.maxEntities);
    SeedsAreVisited(g.relationships, seeds, depthBounds);
    SoundRows(g);
    forall i | 0 <= i < |matches| ensures matches[i].id in ById(entityModels) && ById(entityModels)[matches[i].id] == matches[i] {
      IdOfRow(matches, i);
      assert matches[i] in g.entities && matches[i] in entityModels;
      SameIdSameRow(g.entities, ById(entityModels)[matches[i].id], matches[i]);
    }
    LookupKeepsOrder(ById(entityModels), matches);
  }

  lemma EntityIdsCount(rows: seq<Entity>)
    ensures |EntityIds(rows)| == |rows|
  {
  }

  lemma IdOfRow(rows: seq<Entity>, i: nat)
    requires i < |rows|
    ensures rows[i].id in EntityIds(rows)
  {
    assert EntityIds(rows)[i] == rows[i].id;
  }

  lemma SeedsAreVisited(rows: seq<Relationship>, seeds: seq<EntityId>, bounds: Bounds)
    ensures forall id | id in OrderedSeeds(seeds, bounds.maxEntities) :: id in Neighborhood(rows, seeds, bounds).visited
  {
    hide Advance, OrderedSeeds;
    VisitedGrows(rows, seeds, bounds, 0, bounds.maxDepth);
  }
}
