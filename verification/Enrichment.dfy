/**
  `KnowledgeGraphEnrichmentService.enrich`: extract entities and relationships from every chunk of a
  document and store them in one transaction.
*/
module Enrichment {
  import opened Extraction
  import opened GraphStore
  import opened Wrappers

  datatype EnrichmentError = DocumentNotFound | Extractor(reason: ExtractionError) | UnknownKey | Rejected(rejection: GraphError)

  // The two model-backed extractors: model output is an arbitrary function of the chunk (and of the
  // accepted entities); `None` is a provider failure.
  datatype Extractors = Extractors(
    entityModel: ChunkId -> Option<seq<ExtractedEntity>>,
    relationshipModel: (ChunkId, seq<ExtractedEntity>) -> Option<seq<ExtractedRelationship>>,
    maxEntities: nat, minConfidence: real)
  {
    function Entities(rules: NameRules, chunkId: ChunkId): Result<seq<ExtractedEntity>, ExtractionError> {
      match entityModel(chunkId)
      case None => Err(ProviderFailed)
      case Some(raw) => ExtractEntities(raw, rules, chunkId, minConfidence, maxEntities)
    }

    function Relationships(chunkId: ChunkId, entities: seq<ExtractedEntity>): Result<seq<ExtractedRelationship>, ExtractionError> {
      if entities == [] then Ok([])
      else match relationshipModel(chunkId, entities)
        case None => Err(ProviderFailed)
        case Some(raw) => ExtractRelationships(raw, entities, chunkId, minConfidence)
    }

    // Model output has passed its schema.
    ghost predicate SchemaValid() {
      && (forall c :: entityModel(c).Some? ==> ValidEntities(entityModel(c).value))
      && (forall c, es :: relationshipModel(c, es).Some? ==> ValidRelationships(relationshipModel(c, es).value))
    }
  }

  // `resolved_by_key`, `entity_ids`, `relationship_ids` and the tables.
  datatype Progress = Progress(
    graph: Graph, resolved: map<string, EntityId>, entityIds: set<EntityId>, relationshipIds: set<RelationshipId>)

  type Outcome = Result<Progress, EnrichmentError>

  function StoreEntity(p: Progress, rules: NameRules, documentId: DocumentId, chunkId: ChunkId, entity: ExtractedEntity): Outcome {
    match UpsertEntity(p.graph, rules, entity.entityType, entity.canonicalName, entity.description)
    case Err(e) => Err(Rejected(e))
    case Ok(upserted) =>
      match AddMention(upserted.graph, rules, upserted.row.id, documentId, chunkId, entity.canonicalName, entity.confidence)
      case Err(e) => Err(Rejected(e))
      case Ok(mentioned) =>
        Ok(p.(graph := mentioned.graph, entityIds := p.entityIds + {upserted.row.id},
              resolved := p.resolved[entity.localKey := upserted.row.id]))
  }

  function StoreEntities(p: Progress, rules: NameRules, documentId: DocumentId, chunkId: ChunkId,
                         entities: seq<ExtractedEntity>): Outcome {
    if entities == [] then Ok(p)
    else match StoreEntities(p, rules, documentId, chunkId, entities[..|entities| - 1])
      case Err(e) => Err(e)
      case Ok(q) => StoreEntity(q, rules, documentId, chunkId, entities[|entities| - 1])
  }

  function StoreRelationship(p: Progress, chunkId: ChunkId, edge: ExtractedRelationship): Outcome {
    if edge.sourceKey !in p.resolved || edge.targetKey !in p.resolved then Err(UnknownKey)
    else match AddRelationship(p.graph, p.resolved[edge.sourceKey], p.resolved[edge.targetKey], edge.kind,
                               edge.description, edge.confidence, chunkId)
      case Err(e) => Err(Rejected(e))
      case Ok(stored) => Ok(p.(graph := stored.graph, relationshipIds := p.relationshipIds + {stored.row.id}))
  }

  function StoreRelationships(p: Progress, chunkId: ChunkId, edges: seq<ExtractedRelationship>): Outcome {
    if edges == [] then Ok(p)
    else match StoreRelationships(p, chunkId, edges[..|edges| - 1])
      case Err(e) => Err(e)
      case Ok(q) => StoreRelationship(q, chunkId, edges[|edges| - 1])
  }

  function EnrichChunk(p: Progress, rules: NameRules, extractors: Extractors, documentId: DocumentId, chunkId: ChunkId): Outcome {
    match extractors.Entities(rules, chunkId)
    case Err(e) => Err(Extractor(e))
    case Ok(entities) =>
      match StoreEntities(p.(resolved := map[]), rules, documentId, chunkId, entities)
      case Err(e) => Err(e)
      case Ok(q) =>
        match extractors.Relationships(chunkId, entities)
        case Err(e) => Err(Extractor(e))
        case Ok(edges) => StoreRelationships(q, chunkId, edges)
  }

  function EnrichChunks(p: Progress, rules: NameRules, extractors: Extractors, documentId: DocumentId,
                        chunkIds: seq<ChunkId>): Outcome {
    if chunkIds == [] then Ok(p)
    else match EnrichChunks(p, rules, extractors, documentId, chunkIds[..|chunkIds| - 1])
      case Err(e) => Err(e)
      case Ok(q) => EnrichChunk(q, rules, extractors, documentId, chunkIds[|chunkIds| - 1])
  }

  function Begin(g: Graph): Progress {
    Progress(g, map[], {}, {})
  }

  function EnrichDocument(g: Graph, rules: NameRules, extractors: Extractors, documentId: DocumentId): Outcome {
    if documentId !in g.documents then Err(DocumentNotFound)
    else EnrichChunks(Begin(g), rules, extractors, documentId, g.documents[documentId].chunkIds)
  }

  // ---- Every step only grows the tables and keeps them sound ----

  // Every id counted or resolved so far is that of a stored row.
  ghost predicate Recorded(p: Progress) {
    && (forall id | id in p.entityIds :: id in EntityIds(p.graph.entities))
    && (forall id | id in p.relationshipIds :: id in RelationshipIds(p.graph.relationships))
    && forall key | key in p.resolved :: p.resolved[key] in EntityIds(p.graph.entities)
  }

  // `q` is reached from `p` by storing.
  ghost predicate Reaches(p: Progress, q: Progress) {
    && Grows(p.graph, q.graph) && (Sound(p.graph) ==> Sound(q.graph)) && (Recorded(p) ==> Recorded(q))
    && p.entityIds <= q.entityIds && p.relationshipIds <= q.relationshipIds
  }

  lemma GrowsSelf(g: Graph)
    ensures Grows(g, g)
  {
  }

  lemma IdsStay(older: Graph, newer: Graph)
    requires Grows(older, newer)
    ensures forall id | id in EntityIds(older.entities) :: id in EntityIds(newer.entities)
    ensures forall id | id in RelationshipIds(older.relationships) :: id in RelationshipIds(newer.relationships)
  {
    GrowsKeys(older, newer);
    assert RelationshipIds(older.relationships) == RelationshipIds(newer.relationships)[..|older.relationships|];
  }

  lemma EntityRecorded(p: Progress, q: Progress, row: Entity, key: string)
    requires Recorded(p) && Grows(p.graph, q.graph) && q.relationshipIds == p.relationshipIds
    requires q.entityIds == p.entityIds + {row.id} && q.resolved == p.resolved[key := row.id]
    requires exists i | 0 <= i < |q.graph.entities| :: q.graph.entities[i].id == row.id
    ensures Recorded(q)
  {
    IdsStay(p.graph, q.graph);
    hide Grows;
    var i :| 0 <= i < |q.graph.entities| && q.graph.entities[i].id == row.id;
    assert EntityIds(q.graph.entities)[i] == row.id;
  }

  lemma RelationshipRecorded(p: Progress, q: Progress, row: Relationship)
    requires Recorded(p) && Grows(p.graph, q.graph) && q.entityIds == p.entityIds && q.resolved == p.resolved
    requires q.relationshipIds == p.relationshipIds + {row.id} && row in q.graph.relationships
    ensures Recorded(q)
  {
    IdsStay(p.graph, q.graph);
    hide Grows;
    var i :| 0 <= i < |q.graph.relationships| && q.graph.relationships[i] == row;
    assert RelationshipIds(q.graph.relationships)[i] == row.id;
  }

  lemma StoreEntityReaches(p: Progress, rules: NameRules, documentId: DocumentId, chunkId: ChunkId, entity: ExtractedEntity)
    requires StoreEntity(p, rules, documentId, chunkId, entity).Ok?
    ensures Reaches(p, StoreEntity(p, rules, documentId, chunkId, entity).value)
  {
    hide UpsertEntity, AddMention, Sound, Grows, Recorded;
    var name, description := entity.canonicalName, entity.description;
    var upserted := UpsertEntity(p.graph, rules, entity.entityType, name, description).value;
    var mentioned := AddMention(upserted.graph, rules, upserted.row.id, documentId, chunkId, name, entity.confidence).value;
    UpsertGrows(p.graph, rules, entity.entityType, name, description);
    AddMentionGrows(upserted.graph, rules, upserted.row.id, documentId, chunkId, name, entity.confidence);
    GrowsTransitive(p.graph, upserted.graph, mentioned.graph);
    if Recorded(p) {
      EntityRecorded(p, StoreEntity(p, rules, documentId, chunkId, entity).value, upserted.row, entity.localKey);
    }
    if Sound(p.graph) {
      UpsertIsSound(p.graph, rules, entity.entityType, name, description);
      AddMentionIsSound(upserted.graph, rules, upserted.row.id, documentId, chunkId, name, entity.confidence);
    }
  }

  lemma StoreRelationshipReaches(p: Progress, chunkId: ChunkId, edge: ExtractedRelationship)
    requires StoreRelationship(p, chunkId, edge).Ok?
    ensures Reaches(p, StoreRelationship(p, chunkId, edge).value)
  {
    hide AddRelationship, Sound, Grows, Recorded;
    var source, target := p.resolved[edge.sourceKey], p.resolved[edge.targetKey];
    AddRelationshipGrows(p.graph, source, target, edge.kind, edge.description, edge.confidence, chunkId);
    if Recorded(p) {
      RelationshipRecorded(p, StoreRelationship(p, chunkId, edge).value,
                           AddRelationship(p.graph, source, target, edge.kind, edge.description, edge.confidence, chunkId).value.row);
    }
    if Sound(p.graph) {
      AddRelationshipIsSound(p.graph, source, target, edge.kind, edge.description, edge.confidence, chunkId);
    }
  }

  lemma ReachesTransitive(p: Progress, q: Progress, r: Progress)
    requires Reaches(p, q) && Reaches(q, r)
    ensures Reaches(p, r)
  {
    hide Sound, Grows, Recorded;
    GrowsTransitive(p.graph, q.graph, r.graph);
  }

  lemma ReachesSelf(p: Progress)
    ensures Reaches(p, p)
  {
    GrowsSelf(p.graph);
    hide Sound, Grows, Recorded;
  }

  lemma {:induction false} StoreEntitiesReaches(p: Progress, rules: NameRules, documentId: DocumentId, chunkId: ChunkId,
                                                entities: seq<ExtractedEntity>)
    requires StoreEntities(p, rules, documentId, chunkId, entities).Ok?
    ensures Reaches(p, StoreEntities(p, rules, documentId, chunkId, entities).value)
  {
    hide StoreEntity, Reaches;
    if entities == [] {
      ReachesSelf(p);
    } else {
      var n := |entities| - 1;
      var q := StoreEntities(p, rules, documentId, chunkId, entities[..n]).value;
      StoreEntitiesReaches(p, rules, documentId, chunkId, entities[..n]);
      StoreEntityReaches(q, rules, documentId, chunkId, entities[n]);
      ReachesTransitive(p, q, StoreEntities(p, rules, documentId, chunkId, entities).value);
    }
  }

  lemma {:induction false} StoreRelationshipsReaches(p: Progress, chunkId: ChunkId, edges: seq<ExtractedRelationship>)
    requires StoreRelationships(p, chunkId, edges).Ok?
    ensures Reaches(p, StoreRelationships(p, chunkId, edges).value)
  {
    hide StoreRelationship, Reaches;
    if edges == [] {
      ReachesSelf(p);
    } else {
      var n := |edges| - 1;
      var q := StoreRelationships(p, chunkId, edges[..n]).value;
      StoreRelationshipsReaches(p, chunkId, edges[..n]);
      StoreRelationshipReaches(q, chunkId, edges[n]);
      ReachesTransitive(p, q, StoreRelationships(p, chunkId, edges).value);
    }
  }

  lemma EnrichChunkReaches(p: Progress, rules: NameRules, extractors: Extractors, documentId: DocumentId, chunkId: ChunkId)
    requires EnrichChunk(p, rules, extractors, documentId, chunkId).Ok?
    ensures Reaches(p, EnrichChunk(p, rules, extractors, documentId, chunkId).value)
  {
    hide StoreEntities, StoreRelationships, Sound, Grows;
    var entities := extractors.Entities(rules, chunkId).value;
    var q := StoreEntities(p.(resolved := map[]), rules, documentId, chunkId, entities).value;
    StoreEntitiesReaches(p.(resolved := map[]), rules, documentId, chunkId, entities);
    StoreRelationshipsReaches(q, chunkId, extractors.Relationships(chunkId, entities).value);
    assert Recorded(p) ==> Recorded(p.(resolved := map[]));
    hide Recorded;
    ReachesTransitive(p.(resolved := map[]), q, EnrichChunk(p, rules, extractors, documentId, chunkId).value);
  }

  /** Enriching keeps uniqueness and referential integrity. */
  lemma {:induction false} EnrichChunksReaches(p: Progress, rules: NameRules, extractors: Extractors, documentId: DocumentId,
                                               chunkIds: seq<ChunkId>)
    requires EnrichChunks(p, rules, extractors, documentId, chunkIds).Ok?
    ensures Reaches(p, EnrichChunks(p, rules, extractors, documentId, chunkIds).value)
  {
    hide EnrichChunk, Reaches;
    if chunkIds == [] {
      ReachesSelf(p);
    } else {
      var n := |chunkIds| - 1;
      var q := EnrichChunks(p, rules, extractors, documentId, chunkIds[..n]).value;
      EnrichChunksReaches(p, rules, extractors, documentId, chunkIds[..n]);
      EnrichChunkReaches(q, rules, extractors, documentId, chunkIds[n]);
      ReachesTransitive(p, q, EnrichChunks(p, rules, extractors, documentId, chunkIds).value);
    }
  }

  /** The ids an enrichment counts are those of rows it leaves stored. */
  lemma CountedIdsAreRows(g: Graph, rules: NameRules, extractors: Extractors, documentId: DocumentId)
    requires EnrichDocument(g, rules, extractors, documentId).Ok?
    ensures var p := EnrichDocument(g, rules, extractors, documentId).value;
      && (forall id | id in p.entityIds :: id in EntityIds(p.graph.entities))
      && (forall id | id in p.relationshipIds :: id in RelationshipIds(p.graph.relationships))
      && (forall key | key in p.resolved :: p.resolved[key] in EntityIds(p.graph.entities))
  {
    hide Grows, Sound, EnrichChunks;
    assert Recorded(Begin(g));
    EnrichChunksReaches(Begin(g), rules, extractors, documentId, g.documents[documentId].chunkIds);
  }

  // ---- Idempotence ----
  //
  // Replaying a step on tables that have grown past its result changes nothing and resolves the same ids.

  lemma IndexInPrefix<K>(keys: seq<K>, more: seq<K>, k: K)
    requires keys <= more && k in keys
    ensures IndexOf(more, k) == IndexOf(keys, k)
  {
    var at := IndexOf(keys, k).value;
    NotBefore(keys, k);
    assert forall j | 0 <= j <= at :: more[j] == keys[j];
    IndexIs(more, k, at);
  }

  lemma ReplayUpsert(g: Graph, rules: NameRules, entityType: EntityType, name: string, description: Option<string>, later: Graph)
    requires UpsertEntity(g, rules, entityType, name, description).Ok?
    requires Grows(UpsertEntity(g, rules, entityType, name, description).value.graph, later)
    ensures var again := UpsertEntity(later, rules, entityType, name, description);
      && again.Ok? && again.value.graph == later
      && again.value.row.id == UpsertEntity(g, rules, entityType, name, description).value.row.id
  {
    var stored := UpsertEntity(g, rules, entityType, name, description).value;
    var key := (entityType, rules.Normalize(rules.canonicalize(name)));
    var after := stored.graph;
    var at := match IndexOf(EntityKeys(g.entities), key) case None => |g.entities| case Some(i) => i;
    assert after.entities[at] == stored.row && EntityKeys(after.entities)[at] == key by {
      if IndexOf(EntityKeys(g.entities), key).Some? { assert EntityKeys(g.entities)[at] == key; }
    }
    FirstIndex(g, key, at, after);
    GrowsKeys(after, later);
    IndexInPrefix(EntityKeys(after.entities), EntityKeys(later.entities), key);
    assert SameRow(after.entities[at], later.entities[at]);
    assert later.entities[at := later.entities[at]] == later.entities;
  }

  // The row an upsert touches stays the first one with its key.
  lemma FirstIndex(g: Graph, key: EntityKey, at: nat, after: Graph)
    requires at < |after.entities| && EntityKeys(after.entities)[at] == key
    requires match IndexOf(EntityKeys(g.entities), key)
      case None => at == |g.entities| && after.entities[..at] == g.entities
      case Some(i) => at == i && EntityKeys(after.entities) == EntityKeys(g.entities)
    ensures IndexOf(EntityKeys(after.entities), key) == Some(at)
  {
    var keys := EntityKeys(after.entities);
    NotBefore(EntityKeys(g.entities), key);
    if IndexOf(EntityKeys(g.entities), key).None? {
      assert keys[..at] == EntityKeys(g.entities);
      assert forall j | 0 <= j < at :: keys[j] == keys[..at][j];
    }
    IndexIs(keys, key, at);
  }

  lemma ReplayMention(g: Graph, rules: NameRules, entityId: EntityId, documentId: DocumentId, chunkId: ChunkId,
                      text: string, confidence: real, later: Graph)
    requires AddMention(g, rules, entityId, documentId, chunkId, text, confidence).Ok?
    requires Grows(AddMention(g, rules, entityId, documentId, chunkId, text, confidence).value.graph, later)
    ensures var again := AddMention(later, rules, entityId, documentId, chunkId, text, confidence);
      again.Ok? && again.value.graph == later
  {
    var stored := AddMention(g, rules, entityId, documentId, chunkId, text, confidence).value;
    var keys := MentionKeys(stored.graph.mentions);
    AddMentionGrows(g, rules, entityId, documentId, chunkId, text, confidence);
    GrowsKeys(stored.graph, later);
    assert entityId in EntityIds(stored.graph.entities);
    var i :| 0 <= i < |stored.graph.mentions| && stored.graph.mentions[i] == stored.row;
    assert keys[i] == (entityId, chunkId);
    IndexInPrefix(keys, MentionKeys(later.mentions), (entityId, chunkId));
  }

  lemma ReplayRelationship(g: Graph, source: EntityId, target: EntityId, kind: RelationshipType,
                           description: Option<string>, confidence: real, chunkId: ChunkId, later: Graph)
    requires AddRelationship(g, source, target, kind, description, confidence, chunkId).Ok?
    requires Grows(AddRelationship(g, source, target, kind, description, confidence, chunkId).value.graph, later)
    ensures var again := AddRelationship(later, source, target, kind, description, confidence, chunkId);
      && again.Ok? && again.value.graph == later
      && again.value.row == AddRelationship(g, source, target, kind, description, confidence, chunkId).value.row
  {
    var stored := AddRelationship(g, source, target, kind, description, confidence, chunkId).value;
    var key := (source, target, kind, chunkId);
    GrowsKeys(stored.graph, later);
    assert source in EntityIds(stored.graph.entities) && target in EntityIds(stored.graph.entities);
    var at := match IndexOf(RelationshipKeys(g.relationships), key) case None => |g.relationships| case Some(i) => i;
    var keys := RelationshipKeys(stored.graph.relationships);
    assert stored.graph.relationships[at] == stored.row;
    assert keys[at] == key by {
      if IndexOf(RelationshipKeys(g.relationships), key).Some? { assert RelationshipKeys(g.relationships)[at] == key; }
    }
    NotBefore(RelationshipKeys(g.relationships), key);
    assert keys[..at] == RelationshipKeys(g.relationships)[..at];
    assert forall j | 0 <= j < at :: keys[j] == keys[..at][j];
    IndexIs(keys, key, at);
    IndexInPrefix(keys, RelationshipKeys(later.relationships), key);
    assert later.relationships[at] == stored.graph.relationships[at];
  }

  lemma ReplayEntity(p: Progress, rules: NameRules, documentId: DocumentId, chunkId: ChunkId, entity: ExtractedEntity,
                     later: Graph)
    requires StoreEntity(p, rules, documentId, chunkId, entity).Ok?
    requires Grows(StoreEntity(p, rules, documentId, chunkId, entity).value.graph, later)
    ensures StoreEntity(p.(graph := later), rules, documentId, chunkId, entity) ==
            Ok(StoreEntity(p, rules, documentId, chunkId, entity).value.(graph := later))
  {
    hide UpsertEntity, AddMention, Grows;
    var name, description := entity.canonicalName, entity.description;
    var upserted := UpsertEntity(p.graph, rules, entity.entityType, name, description).value;
    var id := upserted.row.id;
    var mentioned := AddMention(upserted.graph, rules, id, documentId, chunkId, name, entity.confidence).value;
    AddMentionGrows(upserted.graph, rules, id, documentId, chunkId, name, entity.confidence);
    GrowsTransitive(upserted.graph, mentioned.graph, later);
    ReplayUpsert(p.graph, rules, entity.entityType, name, description, later);
    ReplayMention(upserted.graph, rules, id, documentId, chunkId, name, entity.confidence, later);
  }

  lemma {:induction false} ReplayEntities(p: Progress, rules: NameRules, documentId: DocumentId, chunkId: ChunkId,
                                          entities: seq<ExtractedEntity>, later: Graph)
    requires StoreEntities(p, rules, documentId, chunkId, entities).Ok?
    requires Grows(StoreEntities(p, rules, documentId, chunkId, entities).value.graph, later)
    ensures StoreEntities(p.(graph := later), rules, documentId, chunkId, entities) ==
            Ok(StoreEntities(p, rules, documentId, chunkId, entities).value.(graph := later))
  {
    hide StoreEntity, Grows;
    if entities != [] {
      var n := |entities| - 1;
      var q := StoreEntities(p, rules, documentId, chunkId, entities[..n]).value;
      var r := StoreEntity(q, rules, documentId, chunkId, entities[n]).value;
      StoreEntityReaches(q, rules, documentId, chunkId, entities[n]);
      GrowsTransitive(q.graph, r.graph, later);
      ReplayEntities(p, rules, documentId, chunkId, entities[..n], later);
      ReplayEntity(q, rules, documentId, chunkId, entities[n], later);
    }
  }

  lemma {:induction false} ReplayRelationships(p: Progress, chunkId: ChunkId, edges: seq<ExtractedRelationship>, later: Graph)
    requires StoreRelationships(p, chunkId, edges).Ok?
    requires Grows(StoreRelationships(p, chunkId, edges).value.graph, later)
    ensures StoreRelationships(p.(graph := later), chunkId, edges) ==
            Ok(StoreRelationships(p, chunkId, edges).value.(graph := later))
  {
    hide AddRelationship, Grows;
    if edges != [] {
      var n := |edges| - 1;
      var edge := edges[n];
      var q := StoreRelationships(p, chunkId, edges[..n]).value;
      var r := StoreRelationship(q, chunkId, edge).value;
      StoreRelationshipReaches(q, chunkId, edge);
      GrowsTransitive(q.graph, r.graph, later);
      ReplayRelationships(p, chunkId, edges[..n], later);
      ReplayRelationship(q.graph, q.resolved[edge.sourceKey], q.resolved[edge.targetKey], edge.kind, edge.description,
                         edge.confidence, chunkId, later);
    }
  }

  lemma ReplayChunk(p: Progress, rules: NameRules, extractors: Extractors, documentId: DocumentId, chunkId: ChunkId, later: Graph)
    requires EnrichChunk(p, rules, extractors, documentId, chunkId).Ok?
    requires Grows(EnrichChunk(p, rules, extractors, documentId, chunkId).value.graph, later)
    ensures EnrichChunk(p.(graph := later), rules, extractors, documentId, chunkId) ==
            Ok(EnrichChunk(p, rules, extractors, documentId, chunkId).value.(graph := later))
  {
    hide StoreEntities, StoreRelationships, Grows;
    var entities := extractors.Entities(rules, chunkId).value;
    var start := p.(resolved := map[]);
    var q := StoreEntities(start, rules, documentId, chunkId, entities).value;
    var edges := extractors.Relationships(chunkId, entities).value;
    StoreRelationshipsReaches(q, chunkId, edges);
    GrowsTransitive(q.graph, StoreRelationships(q, chunkId, edges).value.graph, later);
    ReplayEntities(start, rules, documentId, chunkId, entities, later);
    ReplayRelationships(q, chunkId, edges, later);
  }

  lemma {:induction false} ReplayChunks(p: Progress, rules: NameRules, extractors: Extractors, documentId: DocumentId,
                                        chunkIds: seq<ChunkId>, later: Graph)
    requires EnrichChunks(p, rules, extractors, documentId, chunkIds).Ok?
    requires Grows(EnrichChunks(p, rules, extractors, documentId, chunkIds).value.graph, later)
    ensures EnrichChunks(p.(graph := later), rules, extractors, documentId, chunkIds) ==
            Ok(EnrichChunks(p, rules, extractors, documentId, chunkIds).value.(graph := later))
  {
    hide EnrichChunk, Grows;
    if chunkIds != [] {
      var n := |chunkIds| - 1;
      var q := EnrichChunks(p, rules, extractors, documentId, chunkIds[..n]).value;
      var r := EnrichChunk(q, rules, extractors, documentId, chunkIds[n]).value;
      EnrichChunkReaches(q, rules, extractors, documentId, chunkIds[n]);
      GrowsTransitive(q.graph, r.graph, later);
      ReplayChunks(p, rules, extractors, documentId, chunkIds[..n], later);
      ReplayChunk(q, rules, extractors, documentId, chunkIds[n], later);
    }
  }

  /** Enriching the same document again changes no table and returns the same ids. */
  lemma EnrichmentIsIdempotent(g: Graph, rules: NameRules, extractors: Extractors, documentId: DocumentId)
    requires EnrichDocument(g, rules, extractors, documentId).Ok?
    ensures EnrichDocument(EnrichDocument(g, rules, extractors, documentId).value.graph, rules, extractors, documentId)
            == EnrichDocument(g, rules, extractors, documentId)
  {
    hide EnrichChunks;
    var chunkIds := g.documents[documentId].chunkIds;
    var later := EnrichDocument(g, rules, extractors, documentId).value.graph;
    EnrichChunksReaches(Begin(g), rules, extractors, documentId, chunkIds);
    GrowsSelf(later);
    ReplayChunks(Begin(g), rules, extractors, documentId, chunkIds, later);
  }

  // ---- The store rejects nothing that the extractors return ----

  // The id a local key resolves to is that of the row with the entity's identity.
  ghost predicate ResolvesTo(p: Progress, rules: NameRules, entity: ExtractedEntity) {
    && entity.localKey in p.resolved
    && exists i | 0 <= i < |p.graph.entities| ::
         EntityKeys(p.graph.entities)[i] == IdentityOf(rules, entity)
         && EntityIds(p.graph.entities)[i] == p.resolved[entity.localKey]
  }

  // A chunk of the document, as it is stored.
  ghost predicate StoredChunk(g: Graph, documentId: DocumentId, chunkId: ChunkId) {
    chunkId in g.chunks && g.chunks[chunkId].documentId == documentId
  }

  lemma EntityIsStored(p: Progress, rules: NameRules, documentId: DocumentId, chunkId: ChunkId, entity: ExtractedEntity)
    requires StoredChunk(p.graph, documentId, chunkId) && GoodEntity(rules, chunkId, entity)
    ensures StoreEntity(p, rules, documentId, chunkId, entity).Ok?
    ensures var q := StoreEntity(p, rules, documentId, chunkId, entity).value;
      && ResolvesTo(q, rules, entity) && StoredChunk(q.graph, documentId, chunkId)
      && forall k | k in p.resolved && k != entity.localKey :: k in q.resolved && q.resolved[k] == p.resolved[k]
  {
    var name, description := entity.canonicalName, entity.description;
    UpsertGrows(p.graph, rules, entity.entityType, name, description);
    var upserted := UpsertEntity(p.graph, rules, entity.entityType, name, description).value;
    hide UpsertEntity;
    var i :| 0 <= i < |upserted.graph.entities| && upserted.graph.entities[i] == upserted.row;
    assert EntityIds(upserted.graph.entities)[i] == upserted.row.id;
    assert EntityKeys(upserted.graph.entities)[i] == IdentityOf(rules, entity);
    assert AddMention(upserted.graph, rules, upserted.row.id, documentId, chunkId, name, entity.confidence).Ok?;
    AddMentionGrows(upserted.graph, rules, upserted.row.id, documentId, chunkId, name, entity.confidence);
  }

  lemma ResolvesStill(p: Progress, q: Progress, rules: NameRules, entity: ExtractedEntity)
    requires Grows(p.graph, q.graph) && ResolvesTo(p, rules, entity)
    requires entity.localKey in q.resolved && q.resolved[entity.localKey] == p.resolved[entity.localKey]
    ensures ResolvesTo(q, rules, entity)
  {
    GrowsKeys(p.graph, q.graph);
    var i :| 0 <= i < |p.graph.entities| && EntityKeys(p.graph.entities)[i] == IdentityOf(rules, entity)
             && EntityIds(p.graph.entities)[i] == p.resolved[entity.localKey];
    assert EntityKeys(q.graph.entities)[i] == EntityKeys(p.graph.entities)[i];
    assert EntityIds(q.graph.entities)[i] == EntityIds(p.graph.entities)[i];
  }

  lemma GoodPrefix(rules: NameRules, chunkId: ChunkId, entities: seq<ExtractedEntity>)
    requires entities != [] && GoodEntities(rules, chunkId, entities)
    ensures GoodEntities(rules, chunkId, entities[..|entities| - 1])
    ensures GoodEntity(rules, chunkId, entities[|entities| - 1])
    ensures forall i | 0 <= i < |entities| - 1 :: entities[i].localKey != entities[|entities| - 1].localKey
  {
  }

  lemma {:induction false} EntitiesAreStored(p: Progress, rules: NameRules, documentId: DocumentId, chunkId: ChunkId,
                                             entities: seq<ExtractedEntity>)
    requires StoredChunk(p.graph, documentId, chunkId) && GoodEntities(rules, chunkId, entities)
    ensures StoreEntities(p, rules, documentId, chunkId, entities).Ok?
    ensures var q := StoreEntities(p, rules, documentId, chunkId, entities).value;
      StoredChunk(q.graph, documentId, chunkId) && forall i | 0 <= i < |entities| :: ResolvesTo(q, rules, entities[i])
  {
    hide StoreEntity, ResolvesTo, GoodEntities, GoodEntity, Sound, Grows, StoredChunk;
    if entities != [] {
      var n := |entities| - 1;
      var last := entities[n];
      GoodPrefix(rules, chunkId, entities);
      EntitiesAreStored(p, rules, documentId, chunkId, entities[..n]);
      var q := StoreEntities(p, rules, documentId, chunkId, entities[..n]).value;
      EntityIsStored(q, rules, documentId, chunkId, last);
      StoreEntityReaches(q, rules, documentId, chunkId, last);
      var r := StoreEntity(q, rules, documentId, chunkId, last).value;
      forall i | 0 <= i < n ensures ResolvesTo(r, rules, entities[i]) {
        assert entities[..n][i] == entities[i];
        KeyIsResolved(q, rules, entities[i]);
        ResolvesStill(q, r, rules, entities[i]);
      }
    }
  }

  lemma KeyIsResolved(p: Progress, rules: NameRules, entity: ExtractedEntity)
    requires ResolvesTo(p, rules, entity)
    ensures entity.localKey in p.resolved && p.resolved[entity.localKey] in EntityIds(p.graph.entities)
  {
  }

  /** Different local keys resolve to different entities. */
  lemma ResolutionIsInjective(p: Progress, rules: NameRules, a: ExtractedEntity, b: ExtractedEntity)
    requires SoundEntities(p.graph) && ResolvesTo(p, rules, a) && ResolvesTo(p, rules, b)
    requires IdentityOf(rules, a) != IdentityOf(rules, b)
    ensures p.resolved[a.localKey] != p.resolved[b.localKey]
  {
    var keys, ids := EntityKeys(p.graph.entities), EntityIds(p.graph.entities);
    var i :| 0 <= i < |p.graph.entities| && keys[i] == IdentityOf(rules, a) && ids[i] == p.resolved[a.localKey];
    var j :| 0 <= j < |p.graph.entities| && keys[j] == IdentityOf(rules, b) && ids[j] == p.resolved[b.localKey];
    assert i != j;
  }

  lemma KeysDiffer(p: Progress, rules: NameRules, chunkId: ChunkId, entities: seq<ExtractedEntity>, source: string, target: string)
    requires SoundEntities(p.graph) && GoodEntities(rules, chunkId, entities)
    requires forall i | 0 <= i < |entities| :: ResolvesTo(p, rules, entities[i])
    requires source in LocalKeys(entities) && target in LocalKeys(entities) && source != target
    ensures source in p.resolved && target in p.resolved && p.resolved[source] != p.resolved[target]
    ensures p.resolved[source] in EntityIds(p.graph.entities) && p.resolved[target] in EntityIds(p.graph.entities)
  {
    hide ResolvesTo, SoundEntities, GoodEntity, IdentityOf;
    var i :| 0 <= i < |entities| && entities[i].localKey == source;
    var j :| 0 <= j < |entities| && entities[j].localKey == target;
    KeyIsResolved(p, rules, entities[i]);
    KeyIsResolved(p, rules, entities[j]);
    assert IdentityOf(rules, entities[i]) != IdentityOf(rules, entities[j]) by {
      assert i < j || j < i;
    }
    ResolutionIsInjective(p, rules, entities[i], entities[j]);
  }

  // What the relationship loop relies on and keeps.
  ghost predicate ReadyForEdges(p: Progress, rules: NameRules, documentId: DocumentId, chunkId: ChunkId,
                                entities: seq<ExtractedEntity>) {
    && Sound(p.graph) && StoredChunk(p.graph, documentId, chunkId) && GoodEntities(rules, chunkId, entities)
    && forall i | 0 <= i < |entities| :: ResolvesTo(p, rules, entities[i])
  }

  ghost predicate GoodEdges(entities: seq<ExtractedEntity>, edges: seq<ExtractedRelationship>) {
    forall i | 0 <= i < |edges| ::
      && edges[i].sourceKey in LocalKeys(entities) && edges[i].targetKey in LocalKeys(entities)
      && edges[i].sourceKey != edges[i].targetKey && InUnitRange(edges[i].confidence)
  }

  lemma EdgeIsStored(p: Progress, rules: NameRules, documentId: DocumentId, chunkId: ChunkId,
                     entities: seq<ExtractedEntity>, edge: ExtractedRelationship)
    requires ReadyForEdges(p, rules, documentId, chunkId, entities)
    requires edge.sourceKey in LocalKeys(entities) && edge.targetKey in LocalKeys(entities)
    requires edge.sourceKey != edge.targetKey && InUnitRange(edge.confidence)
    ensures StoreRelationship(p, chunkId, edge).Ok?
    ensures ReadyForEdges(StoreRelationship(p, chunkId, edge).value, rules, documentId, chunkId, entities)
  {
    hide ResolvesTo, GoodEntities, LocalKeys, SoundMentions, SoundRelationships, SoundDocuments, SoundEntities;
    KeysDiffer(p, rules, chunkId, entities, edge.sourceKey, edge.targetKey);
    var source, target := p.resolved[edge.sourceKey], p.resolved[edge.targetKey];
    assert AddRelationship(p.graph, source, target, edge.kind, edge.description, edge.confidence, chunkId).Ok?;
    hide AddRelationship, Sound;
    var q := StoreRelationship(p, chunkId, edge).value;
    StoreRelationshipReaches(p, chunkId, edge);
    forall i | 0 <= i < |entities| ensures ResolvesTo(q, rules, entities[i]) {
      KeyIsResolved(p, rules, entities[i]);
      ResolvesStill(p, q, rules, entities[i]);
    }
  }

  lemma {:induction false} EdgesAreStored(p: Progress, rules: NameRules, documentId: DocumentId, chunkId: ChunkId,
                                          entities: seq<ExtractedEntity>, edges: seq<ExtractedRelationship>)
    requires ReadyForEdges(p, rules, documentId, chunkId, entities) && GoodEdges(entities, edges)
    ensures StoreRelationships(p, chunkId, edges).Ok?
    ensures ReadyForEdges(StoreRelationships(p, chunkId, edges).value, rules, documentId, chunkId, entities)
  {
    hide StoreRelationship, ReadyForEdges, LocalKeys;
    if edges != [] {
      var n := |edges| - 1;
      assert forall i | 0 <= i < n :: edges[..n][i] == edges[i];
      EdgesAreStored(p, rules, documentId, chunkId, entities, edges[..n]);
      EdgeIsStored(StoreRelationships(p, chunkId, edges[..n]).value, rules, documentId, chunkId, entities, edges[n]);
    }
  }

  // Once the entities of a stored chunk are extracted they are stored, and the relationship loop can begin.
  lemma ChunkIsReady(p: Progress, rules: NameRules, extractors: Extractors, documentId: DocumentId, chunkId: ChunkId)
    requires Sound(p.graph) && rules.Lawful() && extractors.SchemaValid()
    requires StoredChunk(p.graph, documentId, chunkId) && extractors.Entities(rules, chunkId).Ok?
    ensures var entities := extractors.Entities(rules, chunkId).value;
      var stored := StoreEntities(p.(resolved := map[]), rules, documentId, chunkId, entities);
      stored.Ok? && ReadyForEdges(stored.value, rules, documentId, chunkId, entities)
  {
    hide Sound, StoredChunk, StoreEntities, ExtractEntities, GoodEntities, ResolvesTo, ValidEntities;
    var entities, start := extractors.Entities(rules, chunkId).value, p.(resolved := map[]);
    ExtractedEntitiesAreGood(extractors.entityModel(chunkId).value, rules, chunkId, extractors.minConfidence, extractors.maxEntities);
    EntitiesAreStored(start, rules, documentId, chunkId, entities);
    StoreEntitiesReaches(start, rules, documentId, chunkId, entities);
  }

  /** Once both extractors return for a stored chunk, nothing is rejected and no key is unknown. */
  lemma ExtractedChunkIsStored(p: Progress, rules: NameRules, extractors: Extractors, documentId: DocumentId, chunkId: ChunkId)
    requires Sound(p.graph) && rules.Lawful() && extractors.SchemaValid()
    requires StoredChunk(p.graph, documentId, chunkId)
    ensures var entities := extractors.Entities(rules, chunkId);
      && (entities.Ok? && extractors.Relationships(chunkId, entities.value).Ok?
          <==> EnrichChunk(p, rules, extractors, documentId, chunkId).Ok?)
      && (EnrichChunk(p, rules, extractors, documentId, chunkId).Err? ==>
            EnrichChunk(p, rules, extractors, documentId, chunkId).error.Extractor?)
  {
    hide Sound, StoredChunk, StoreEntities, StoreRelationships, ReadyForEdges, GoodEdges, ValidEntities, ValidRelationships;
    var entities := extractors.Entities(rules, chunkId);
    if entities.Ok? {
      ChunkIsReady(p, rules, extractors, documentId, chunkId);
      var q := StoreEntities(p.(resolved := map[]), rules, documentId, chunkId, entities.value).value;
      var edges := extractors.Relationships(chunkId, entities.value);
      if edges.Ok? {
        EdgesOfChunk(extractors, chunkId, entities.value);
        EdgesAreStored(q, rules, documentId, chunkId, entities.value, edges.value);
      }
    }
  }

  lemma EdgesOfChunk(extractors: Extractors, chunkId: ChunkId, entities: seq<ExtractedEntity>)
    requires extractors.SchemaValid() && extractors.Relationships(chunkId, entities).Ok?
    ensures GoodEdges(entities, extractors.Relationships(chunkId, entities).value)
  {
    hide ValidEntities, ValidRelationships, ExtractRelationships, LocalKeys;
    if entities != [] {
      assert ValidRelationships(extractors.relationshipModel(chunkId, entities).value);
      ExtractedRelationshipsAreGood(extractors.relationshipModel(chunkId, entities).value, entities, chunkId, extractors.minConfidence);
    }
  }

  lemma {:induction false} ChunksFailOnlyInExtraction(p: Progress, rules: NameRules, extractors: Extractors,
                                                      documentId: DocumentId, chunkIds: seq<ChunkId>)
    requires Sound(p.graph) && rules.Lawful() && extractors.SchemaValid()
    requires forall c | c in chunkIds :: StoredChunk(p.graph, documentId, c)
    ensures EnrichChunks(p, rules, extractors, documentId, chunkIds).Err? ==>
            EnrichChunks(p, rules, extractors, documentId, chunkIds).error.Extractor?
  {
    hide EnrichChunk, Sound;
    if chunkIds != [] {
      var n := |chunkIds| - 1;
      ChunksFailOnlyInExtraction(p, rules, extractors, documentId, chunkIds[..n]);
      if EnrichChunks(p, rules, extractors, documentId, chunkIds[..n]).Ok? {
        var q := EnrichChunks(p, rules, extractors, documentId, chunkIds[..n]).value;
        EnrichChunksReaches(p, rules, extractors, documentId, chunkIds[..n]);
        assert chunkIds[n] in chunkIds && StoredChunk(p.graph, documentId, chunkIds[n]);
        ExtractedChunkIsStored(q, rules, extractors, documentId, chunkIds[n]);
      }
    }
  }

  /** Enriching fails only for an unknown document or in an extractor. */
  lemma FailsOnlyInExtraction(g: Graph, rules: NameRules, extractors: Extractors, documentId: DocumentId)
    requires Sound(g) && rules.Lawful() && extractors.SchemaValid()
    requires EnrichDocument(g, rules, extractors, documentId).Err?
    ensures var error := EnrichDocument(g, rules, extractors, documentId).error;
      if documentId !in g.documents then error == DocumentNotFound else error.Extractor?
  {
    if documentId in g.documents {
      assert SoundDocuments(g.chunks, g.documents);
      ChunksFailOnlyInExtraction(Begin(g), rules, extractors, documentId, g.documents[documentId].chunkIds);
    }
  }

  // ---- The service ----

  lemma {:induction false} EntityFailureStays(p: Progress, rules: NameRules, documentId: DocumentId, chunkId: ChunkId,
                                              entities: seq<ExtractedEntity>, i: nat)
    requires i <= |entities| && StoreEntities(p, rules, documentId, chunkId, entities[..i]).Err?
    ensures StoreEntities(p, rules, documentId, chunkId, entities) == StoreEntities(p, rules, documentId, chunkId, entities[..i])
  {
    hide StoreEntity;
    if i == |entities| {
      assert entities[..i] == entities;
    } else {
      assert entities[..|entities| - 1][..i] == entities[..i];
      EntityFailureStays(p, rules, documentId, chunkId, entities[..|entities| - 1], i);
    }
  }

  lemma {:induction false} EdgeFailureStays(p: Progress, chunkId: ChunkId, edges: seq<ExtractedRelationship>, i: nat)
    requires i <= |edges| && StoreRelationships(p, chunkId, edges[..i]).Err?
    ensures StoreRelationships(p, chunkId, edges) == StoreRelationships(p, chunkId, edges[..i])
  {
    hide StoreRelationship;
    if i == |edges| {
      assert edges[..i] == edges;
    } else {
      assert edges[..|edges| - 1][..i] == edges[..i];
      EdgeFailureStays(p, chunkId, edges[..|edges| - 1], i);
    }
  }

  lemma {:induction false} ChunkFailureStays(p: Progress, rules: NameRules, extractors: Extractors, documentId: DocumentId,
                                             chunkIds: seq<ChunkId>, i: nat)
    requires i <= |chunkIds| && EnrichChunks(p, rules, extractors, documentId, chunkIds[..i]).Err?
    ensures EnrichChunks(p, rules, extractors, documentId, chunkIds) == EnrichChunks(p, rules, extractors, documentId, chunkIds[..i])
  {
    hide EnrichChunk;
    if i == |chunkIds| {
      assert chunkIds[..i] == chunkIds;
    } else {
      assert chunkIds[..|chunkIds| - 1][..i] == chunkIds[..i];
      ChunkFailureStays(p, rules, extractors, documentId, chunkIds[..|chunkIds| - 1], i);
    }
  }

  class EnrichmentService {
    const store: KnowledgeGraphStore
    const extractors: Extractors
    // The local sets and the key table of a call.
    var resolvedByKey: map<string, EntityId>
    var entityIds: set<EntityId>
    var relationshipIds: set<RelationshipId>

    ghost function Now(): Progress
      reads this, store
    {
      Progress(store.View(), resolvedByKey, entityIds, relationshipIds)
    }

    constructor (store: KnowledgeGraphStore, extractors: Extractors)
      ensures this.store == store && this.extractors == extractors
    {
      this.store, this.extractors := store, extractors;
      resolvedByKey, entityIds, relationshipIds := map[], {}, {};
    }

    // The entity loop of one chunk.
    method PersistEntities(documentId: DocumentId, chunkId: ChunkId, entities: seq<ExtractedEntity>)
      returns (failure: Option<EnrichmentError>)
      requires store.Valid()
      modifies this, store
      ensures store.Valid() && store.committed == old(store.committed)
      ensures StoreEntities(old(Now()), store.rules, documentId, chunkId, entities) ==
              match failure { case None => Ok(Now()) case Some(e) => Err(e) }
    {
      hide UpsertEntity, AddMention, Sound;
      ghost var start := Now();
      for i := 0 to |entities|
        invariant store.Valid() && store.committed == old(store.committed)
        invariant StoreEntities(start, store.rules, documentId, chunkId, entities[..i]) == Ok(Now())
      {
        assert entities[..i + 1][..i] == entities[..i] && entities[..i + 1][i] == entities[i];
        var entity := entities[i];
        var record := store.Upsert(entity.entityType, entity.canonicalName, entity.description);
        if record.Err? {
          EntityFailureStays(start, store.rules, documentId, chunkId, entities, i + 1);
          return Some(Rejected(record.error));
        }
        var mention := store.Mentions(record.value.id, documentId, chunkId, entity.canonicalName, entity.confidence);
        if mention.Err? {
          EntityFailureStays(start, store.rules, documentId, chunkId, entities, i + 1);
          return Some(Rejected(mention.error));
        }
        entityIds := entityIds + {record.value.id};
        resolvedByKey := resolvedByKey[entity.localKey := record.value.id];
      }
      assert entities[..|entities|] == entities;
      return None;
    }

    // The relationship loop of one chunk.
    method PersistRelationships(chunkId: ChunkId, edges: seq<ExtractedRelationship>) returns (failure: Option<EnrichmentError>)
      requires store.Valid()
      modifies this, store
      ensures store.Valid() && store.committed == old(store.committed)
      ensures StoreRelationships(old(Now()), chunkId, edges) ==
              match failure { case None => Ok(Now()) case Some(e) => Err(e) }
    {
      hide AddRelationship, Sound;
      ghost var start := Now();
      for i := 0 to |edges|
        invariant store.Valid() && store.committed == old(store.committed)
        invariant StoreRelationships(start, chunkId, edges[..i]) == Ok(Now())
      {
        assert edges[..i + 1][..i] == edges[..i] && edges[..i + 1][i] == edges[i];
        var edge := edges[i];
        if edge.sourceKey !in resolvedByKey || edge.targetKey !in resolvedByKey {
          EdgeFailureStays(start, chunkId, edges, i + 1);
          return Some(UnknownKey);
        }
        var record := store.Relate(resolvedByKey[edge.sourceKey], resolvedByKey[edge.targetKey], edge.kind,
                                   edge.description, edge.confidence, chunkId);
        if record.Err? {
          EdgeFailureStays(start, chunkId, edges, i + 1);
          return Some(Rejected(record.error));
        }
        relationshipIds := relationshipIds + {record.value.id};
      }
      assert edges[..|edges|] == edges;
      return None;
    }

    method PersistChunk(documentId: DocumentId, chunkId: ChunkId) returns (failure: Option<EnrichmentError>)
      requires store.Valid()
      modifies this, store
      ensures store.Valid() && store.committed == old(store.committed)
      ensures EnrichChunk(old(Now()), store.rules, extractors, documentId, chunkId) ==
              match failure { case None => Ok(Now()) case Some(e) => Err(e) }
    {
      hide StoreEntities, StoreRelationships, Sound;
      var extracted := extractors.Entities(store.rules, chunkId);
      if extracted.Err? {
        return Some(Extractor(extracted.error));
      }
      resolvedByKey := map[];
      failure := PersistEntities(documentId, chunkId, extracted.value);
      if failure.Some? {
        return;
      }
      var edges := extractors.Relationships(chunkId, extracted.value);
      if edges.Err? {
        return Some(Extractor(edges.error));
      }
      failure := PersistRelationships(chunkId, edges.value);
    }

    /** All chunks of the document are enriched and committed, or the tables are as they were before. */
    method Enrich(documentId: DocumentId) returns (result: Result<(nat, nat), EnrichmentError>)
      requires store.Valid() && store.View() == store.committed
      modifies this, store
      ensures store.Valid() && store.View() == store.committed
      ensures match EnrichDocument(old(store.View()), store.rules, extractors, documentId)
        case Err(e) => result == Err(e) && store.View() == old(store.View())
        case Ok(p) => result == Ok((|p.entityIds|, |p.relationshipIds|)) && store.View() == p.graph
    {
      hide EnrichChunk, Sound;
      ghost var before := store.View();
      if documentId !in store.documents {
        store.Rollback();
        return Err(DocumentNotFound);
      }
      var chunkIds := store.documents[documentId].chunkIds;
      resolvedByKey, entityIds, relationshipIds := map[], {}, {};
      for i := 0 to |chunkIds|
        invariant store.Valid() && store.committed == before
        invariant EnrichChunks(Begin(before), store.rules, extractors, documentId, chunkIds[..i]) == Ok(Now())
      {
        assert chunkIds[..i + 1][..i] == chunkIds[..i] && chunkIds[..i + 1][i] == chunkIds[i];
        var failure := PersistChunk(documentId, chunkIds[i]);
        if failure.Some? {
          ChunkFailureStays(Begin(before), store.rules, extractors, documentId, chunkIds, i + 1);
          store.Rollback();
          return Err(failure.value);
        }
      }
      assert chunkIds[..|chunkIds|] == chunkIds;
      store.Commit();
      result := Ok((|entityIds|, |relationshipIds|));
    }
  }
}
