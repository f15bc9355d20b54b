/**
  What a finished enrichment leaves in the tables: which rows every accepted entity and relationship has, and where
  every new row comes from.
*/
module EnrichedRows {
  import opened Enrichment
  import opened Extraction
  import opened GraphStore
  import opened Wrappers

  // ---- What the extractors accepted ----

  ghost predicate Accepted(rules: NameRules, extractors: Extractors, chunkId: ChunkId, entity: ExtractedEntity) {
    extractors.Entities(rules, chunkId).Ok? && entity in extractors.Entities(rules, chunkId).value
  }

  ghost predicate AcceptedEdge(rules: NameRules, extractors: Extractors, chunkId: ChunkId, edge: ExtractedRelationship) {
    && extractors.Entities(rules, chunkId).Ok?
    && extractors.Relationships(chunkId, extractors.Entities(rules, chunkId).value).Ok?
    && edge in extractors.Relationships(chunkId, extractors.Entities(rules, chunkId).value).value
  }

  // ---- Rows that stand for what was accepted ----

  ghost predicate IsRowOf(rules: NameRules, entity: ExtractedEntity, row: Entity) {
    row.entityType == entity.entityType && row.normalizedName == rules.Normalize(rules.canonicalize(entity.canonicalName))
  }

  // The id is that of a row with the entity's type and name.
  ghost predicate StandsFor(g: Graph, rules: NameRules, entity: ExtractedEntity, id: EntityId) {
    exists i | 0 <= i < |g.entities| :: g.entities[i].id == id && IsRowOf(rules, entity, g.entities[i])
  }

  // And the row is described if the entity is.
  ghost predicate Represents(g: Graph, rules: NameRules, entity: ExtractedEntity, id: EntityId) {
    exists i | 0 <= i < |g.entities| ::
      && g.entities[i].id == id && IsRowOf(rules, entity, g.entities[i])
      && (entity.description == None || entity.description == Some("") || g.entities[i].description != None)
  }

  // The id stands for the chunk's entity with the given local key.
  ghost predicate EndOf(g: Graph, rules: NameRules, entities: seq<ExtractedEntity>, key: string, id: EntityId) {
    exists i | 0 <= i < |entities| :: entities[i].localKey == key && StandsFor(g, rules, entities[i], id)
  }

  // The row runs from the edge's source to its target.
  ghost predicate RunsAlong(g: Graph, rules: NameRules, extractors: Extractors, chunkId: ChunkId, edge: ExtractedRelationship,
                            row: Relationship) {
    && extractors.Entities(rules, chunkId).Ok? && row.kind == edge.kind && row.chunkId == chunkId
    && EndOf(g, rules, extractors.Entities(rules, chunkId).value, edge.sourceKey, row.source)
    && EndOf(g, rules, extractors.Entities(rules, chunkId).value, edge.targetKey, row.target)
  }

  // Its row is stored and counted.
  ghost predicate EdgeHasRow(p: Progress, rules: NameRules, extractors: Extractors, chunkId: ChunkId, edge: ExtractedRelationship) {
    var rows := p.graph.relationships;
    exists i | 0 <= i < |rows| :: RunsAlong(p.graph, rules, extractors, chunkId, edge, rows[i]) && rows[i].id in p.relationshipIds
  }

  ghost predicate EntityHasMention(p: Progress, rules: NameRules, chunkId: ChunkId, entity: ExtractedEntity) {
    var rows := p.graph.mentions;
    exists i | 0 <= i < |rows| ::
      rows[i].chunkId == chunkId && Represents(p.graph, rules, entity, rows[i].entityId) && rows[i].entityId in p.entityIds
  }

  // Every accepted entity and relationship of the chunk has its row.
  ghost predicate ChunkHasRows(p: Progress, rules: NameRules, extractors: Extractors, chunkId: ChunkId) {
    && extractors.Entities(rules, chunkId).Ok?
    && extractors.Relationships(chunkId, extractors.Entities(rules, chunkId).value).Ok?
    && (forall entity | Accepted(rules, extractors, chunkId, entity) :: EntityHasMention(p, rules, chunkId, entity))
    && forall edge | AcceptedEdge(rules, extractors, chunkId, edge) :: EdgeHasRow(p, rules, extractors, chunkId, edge)
  }

  // ---- Where new rows come from ----

  ghost predicate EdgeMadeIt(g: Graph, rules: NameRules, extractors: Extractors, chunkId: ChunkId, edge: ExtractedRelationship,
                             row: Relationship) {
    && AcceptedEdge(rules, extractors, chunkId, edge) && RunsAlong(g, rules, extractors, chunkId, edge, row)
    && row.description == edge.description && row.confidence == edge.confidence
  }

  ghost predicate MentionFrom(g: Graph, rules: NameRules, documentId: DocumentId, chunkId: ChunkId, entity: ExtractedEntity,
                              row: Mention) {
    && StandsFor(g, rules, entity, row.entityId) && row.chunkId == chunkId && row.documentId == documentId
    && row.text == rules.canonicalize(entity.canonicalName) && row.confidence == entity.confidence
  }

  ghost predicate RowFrom(rules: NameRules, entity: ExtractedEntity, row: Entity) {
    IsRowOf(rules, entity, row) && row.canonicalName == rules.canonicalize(entity.canonicalName)
  }

  // The row's description is the entity's.
  ghost predicate DescribedBy(rules: NameRules, entity: ExtractedEntity, row: Entity) {
    IsRowOf(rules, entity, row) && row.description == entity.description
  }

  ghost predicate DescriptionComesFrom(rules: NameRules, extractors: Extractors, chunkIds: seq<ChunkId>, row: Entity) {
    exists c, entity :: c in chunkIds && Accepted(rules, extractors, c, entity) && DescribedBy(rules, entity, row)
  }

  // The row is stored already, as it is.
  ghost predicate Untouched(g: Graph, h: Graph, i: nat)
    requires i < |h.entities|
  {
    i < |g.entities| && h.entities[i] == g.entities[i]
  }

  ghost predicate RelationshipComesFrom(g: Graph, rules: NameRules, extractors: Extractors, chunkIds: seq<ChunkId>, row: Relationship) {
    exists c, edge :: c in chunkIds && EdgeMadeIt(g, rules, extractors, c, edge, row)
  }

  ghost predicate MentionComesFrom(g: Graph, rules: NameRules, extractors: Extractors, documentId: DocumentId,
                                   chunkIds: seq<ChunkId>, row: Mention) {
    exists c, entity :: c in chunkIds && Accepted(rules, extractors, c, entity) && MentionFrom(g, rules, documentId, c, entity, row)
  }

  ghost predicate EntityComesFrom(rules: NameRules, extractors: Extractors, chunkIds: seq<ChunkId>, row: Entity) {
    exists c, entity :: c in chunkIds && Accepted(rules, extractors, c, entity) && RowFrom(rules, entity, row)
  }

  ghost predicate CountedEntityComesFrom(g: Graph, rules: NameRules, extractors: Extractors, chunkIds: seq<ChunkId>, id: EntityId) {
    exists c, entity :: c in chunkIds && Accepted(rules, extractors, c, entity) && StandsFor(g, rules, entity, id)
  }

  ghost predicate CountedEdgeComesFrom(g: Graph, rules: NameRules, extractors: Extractors, chunkIds: seq<ChunkId>, id: RelationshipId) {
    exists i, c, edge :: 0 <= i < |g.relationships| && g.relationships[i].id == id && c in chunkIds
      && AcceptedEdge(rules, extractors, c, edge) && RunsAlong(g, rules, extractors, c, edge, g.relationships[i])
  }

  // Every row that `g` does not have yet, and every description that it does not have, comes from one of the chunks.
  ghost predicate NewRowsComeFrom(g: Graph, h: Graph, rules: NameRules, extractors: Extractors, documentId: DocumentId,
                                  chunkIds: seq<ChunkId>) {
    && (forall i | |g.relationships| <= i < |h.relationships| ::
          RelationshipComesFrom(h, rules, extractors, chunkIds, h.relationships[i]))
    && (forall i | |g.mentions| <= i < |h.mentions| ::
          MentionComesFrom(h, rules, extractors, documentId, chunkIds, h.mentions[i]))
    && (forall i | |g.entities| <= i < |h.entities| :: EntityComesFrom(rules, extractors, chunkIds, h.entities[i]))
    && (forall i: nat | i < |h.entities| :: Untouched(g, h, i) || DescriptionComesFrom(rules, extractors, chunkIds, h.entities[i]))
  }

  // Every id that `p` does not count yet is that of something accepted in one of the chunks.
  ghost predicate NewIdsComeFrom(p: Progress, q: Progress, rules: NameRules, extractors: Extractors, chunkIds: seq<ChunkId>) {
    && (forall id | id in q.entityIds && id !in p.entityIds :: CountedEntityComesFrom(q.graph, rules, extractors, chunkIds, id))
    && forall id | id in q.relationshipIds && id !in p.relationshipIds ::
         CountedEdgeComesFrom(q.graph, rules, extractors, chunkIds, id)
  }

  ghost predicate Later(p: Progress, q: Progress) {
    Grows(p.graph, q.graph) && p.entityIds <= q.entityIds && p.relationshipIds <= q.relationshipIds
  }

  // ---- They keep standing while the tables grow ----

  lemma StandsStill(g: Graph, h: Graph, rules: NameRules, entity: ExtractedEntity, id: EntityId)
    requires Grows(g, h) && StandsFor(g, rules, entity, id)
    ensures StandsFor(h, rules, entity, id)
  {
    var i :| 0 <= i < |g.entities| && g.entities[i].id == id && IsRowOf(rules, entity, g.entities[i]);
    assert SameRow(g.entities[i], h.entities[i]);
  }

  lemma RepresentsStill(g: Graph, h: Graph, rules: NameRules, entity: ExtractedEntity, id: EntityId)
    requires Grows(g, h) && Represents(g, rules, entity, id)
    ensures Represents(h, rules, entity, id)
  {
    var i :| 0 <= i < |g.entities| && g.entities[i].id == id && IsRowOf(rules, entity, g.entities[i])
      && (entity.description == None || entity.description == Some("") || g.entities[i].description != None);
    assert SameRow(g.entities[i], h.entities[i]);
  }

  lemma RunsStill(g: Graph, h: Graph, rules: NameRules, extractors: Extractors, chunkId: ChunkId, edge: ExtractedRelationship,
                  row: Relationship)
    requires Grows(g, h) && RunsAlong(g, rules, extractors, chunkId, edge, row)
    ensures RunsAlong(h, rules, extractors, chunkId, edge, row)
  {
    hide StandsFor, Grows;
    var entities := extractors.Entities(rules, chunkId).value;
    var i :| 0 <= i < |entities| && entities[i].localKey == edge.sourceKey && StandsFor(g, rules, entities[i], row.source);
    var j :| 0 <= j < |entities| && entities[j].localKey == edge.targetKey && StandsFor(g, rules, entities[j], row.target);
    StandsStill(g, h, rules, entities[i], row.source);
    StandsStill(g, h, rules, entities[j], row.target);
  }

  lemma MentionStays(p: Progress, q: Progress, rules: NameRules, chunkId: ChunkId, entity: ExtractedEntity)
    requires Later(p, q) && EntityHasMention(p, rules, chunkId, entity)
    ensures EntityHasMention(q, rules, chunkId, entity)
  {
    hide Represents;
    var rows := p.graph.mentions;
    var i :| 0 <= i < |rows| && rows[i].chunkId == chunkId && Represents(p.graph, rules, entity, rows[i].entityId)
             && rows[i].entityId in p.entityIds;
    RepresentsStill(p.graph, q.graph, rules, entity, rows[i].entityId);
    assert q.graph.mentions[i] == rows[i];
  }

  lemma RowsStay(p: Progress, q: Progress, rules: NameRules, extractors: Extractors, chunkId: ChunkId)
    requires Later(p, q) && ChunkHasRows(p, rules, extractors, chunkId)
    ensures ChunkHasRows(q, rules, extractors, chunkId)
  {
    hide RunsAlong, Accepted, AcceptedEdge, EntityHasMention;
    forall entity | Accepted(rules, extractors, chunkId, entity) ensures EntityHasMention(q, rules, chunkId, entity) {
      MentionStays(p, q, rules, chunkId, entity);
    }
    forall edge | AcceptedEdge(rules, extractors, chunkId, edge) ensures EdgeHasRow(q, rules, extractors, chunkId, edge) {
      var rows := p.graph.relationships;
      var i :| 0 <= i < |rows| && RunsAlong(p.graph, rules, extractors, chunkId, edge, rows[i]) && rows[i].id in p.relationshipIds;
      RunsStill(p.graph, q.graph, rules, extractors, chunkId, edge, rows[i]);
      assert q.graph.relationships[i] == rows[i];
    }
  }

  lemma IdsComeStill(p: Progress, q: Progress, r: Progress, rules: NameRules, extractors: Extractors, chunkIds: seq<ChunkId>,
                     more: seq<ChunkId>)
    requires Later(q, r) && chunkIds <= more
    requires NewIdsComeFrom(p, q, rules, extractors, chunkIds) && NewIdsComeFrom(q, r, rules, extractors, more)
    ensures NewIdsComeFrom(p, r, rules, extractors, more)
  {
    hide CountedEntityComesFrom, CountedEdgeComesFrom;
    forall id | id in r.entityIds && id !in p.entityIds ensures CountedEntityComesFrom(r.graph, rules, extractors, more, id) {
      if id in q.entityIds {
        CountedEntityStill(q.graph, r.graph, rules, extractors, chunkIds, more, id);
      }
    }
    forall id | id in r.relationshipIds && id !in p.relationshipIds
      ensures CountedEdgeComesFrom(r.graph, rules, extractors, more, id)
    {
      if id in q.relationshipIds {
        CountedEdgeStill(q.graph, r.graph, rules, extractors, chunkIds, more, id);
      }
    }
  }

  lemma CountedEntityStill(g: Graph, h: Graph, rules: NameRules, extractors: Extractors, chunkIds: seq<ChunkId>,
                           more: seq<ChunkId>, id: EntityId)
    requires Grows(g, h) && (forall c | c in chunkIds :: c in more) && CountedEntityComesFrom(g, rules, extractors, chunkIds, id)
    ensures CountedEntityComesFrom(h, rules, extractors, more, id)
  {
    hide StandsFor, Accepted, Grows;
    var c, entity :| c in chunkIds && Accepted(rules, extractors, c, entity) && StandsFor(g, rules, entity, id);
    StandsStill(g, h, rules, entity, id);
    assert c in more && Accepted(rules, extractors, c, entity);
  }

  lemma CountedEdgeStill(g: Graph, h: Graph, rules: NameRules, extractors: Extractors, chunkIds: seq<ChunkId>,
                         more: seq<ChunkId>, id: RelationshipId)
    requires Grows(g, h) && (forall c | c in chunkIds :: c in more) && CountedEdgeComesFrom(g, rules, extractors, chunkIds, id)
    ensures CountedEdgeComesFrom(h, rules, extractors, more, id)
  {
    hide RunsAlong, AcceptedEdge;
    var i, c, edge :| 0 <= i < |g.relationships| && g.relationships[i].id == id && c in chunkIds
      && AcceptedEdge(rules, extractors, c, edge) && RunsAlong(g, rules, extractors, c, edge, g.relationships[i]);
    RunsStill(g, h, rules, extractors, c, edge, g.relationships[i]);
    assert h.relationships[i] == g.relationships[i] && c in more;
  }

  lemma RelationshipComesStill(g: Graph, h: Graph, rules: NameRules, extractors: Extractors, chunkIds: seq<ChunkId>,
                               more: seq<ChunkId>, row: Relationship)
    requires Grows(g, h) && chunkIds <= more && RelationshipComesFrom(g, rules, extractors, chunkIds, row)
    ensures RelationshipComesFrom(h, rules, extractors, more, row)
  {
    hide RunsAlong, AcceptedEdge, Grows;
    var c, edge :| c in chunkIds && EdgeMadeIt(g, rules, extractors, c, edge, row);
    RunsStill(g, h, rules, extractors, c, edge, row);
    assert c in more && EdgeMadeIt(h, rules, extractors, c, edge, row);
  }

  lemma MentionComesStill(g: Graph, h: Graph, rules: NameRules, extractors: Extractors, documentId: DocumentId,
                          chunkIds: seq<ChunkId>, more: seq<ChunkId>, row: Mention)
    requires Grows(g, h) && chunkIds <= more && MentionComesFrom(g, rules, extractors, documentId, chunkIds, row)
    ensures MentionComesFrom(h, rules, extractors, documentId, more, row)
  {
    hide StandsFor, Accepted, Grows;
    var c, entity :| c in chunkIds && Accepted(rules, extractors, c, entity) && MentionFrom(g, rules, documentId, c, entity, row);
    StandsStill(g, h, rules, entity, row.entityId);
    assert c in more && Accepted(rules, extractors, c, entity) && MentionFrom(h, rules, documentId, c, entity, row);
  }

  lemma EntityComesStill(rules: NameRules, extractors: Extractors, chunkIds: seq<ChunkId>, more: seq<ChunkId>, row: Entity,
                         newer: Entity)
    requires SameRow(row, newer) && chunkIds <= more && EntityComesFrom(rules, extractors, chunkIds, row)
    ensures EntityComesFrom(rules, extractors, more, newer)
  {
    hide Accepted;
    var c, entity :| c in chunkIds && Accepted(rules, extractors, c, entity) && RowFrom(rules, entity, row);
    assert c in more && Accepted(rules, extractors, c, entity) && RowFrom(rules, entity, newer);
  }

  lemma DescriptionComesStill(rules: NameRules, extractors: Extractors, chunkIds: seq<ChunkId>, more: seq<ChunkId>, row: Entity)
    requires (forall c | c in chunkIds :: c in more) && DescriptionComesFrom(rules, extractors, chunkIds, row)
    ensures DescriptionComesFrom(rules, extractors, more, row)
  {
    hide Accepted, DescribedBy;
    var c, entity :| c in chunkIds && Accepted(rules, extractors, c, entity) && DescribedBy(rules, entity, row);
    assert c in more && Accepted(rules, extractors, c, entity);
  }

  lemma ComesStill(g: Graph, h: Graph, later: Graph, rules: NameRules, extractors: Extractors, documentId: DocumentId,
                   chunkIds: seq<ChunkId>, more: seq<ChunkId>)
    requires Grows(h, later) && chunkIds <= more && NewRowsComeFrom(g, h, rules, extractors, documentId, chunkIds)
    requires NewRowsComeFrom(h, later, rules, extractors, documentId, more)
    ensures NewRowsComeFrom(g, later, rules, extractors, documentId, more)
  {
    hide RelationshipComesFrom, MentionComesFrom, EntityComesFrom, DescriptionComesFrom, SameRow;
    forall i | |g.relationships| <= i < |h.relationships|
      ensures RelationshipComesFrom(later, rules, extractors, more, later.relationships[i])
    {
      RelationshipComesStill(h, later, rules, extractors, chunkIds, more, h.relationships[i]);
      assert later.relationships[i] == h.relationships[i];
    }
    forall i | |g.mentions| <= i < |h.mentions|
      ensures MentionComesFrom(later, rules, extractors, documentId, more, later.mentions[i])
    {
      MentionComesStill(h, later, rules, extractors, documentId, chunkIds, more, h.mentions[i]);
      assert later.mentions[i] == h.mentions[i];
    }
    forall i | |g.entities| <= i < |h.entities| ensures EntityComesFrom(rules, extractors, more, later.entities[i]) {
      EntityComesStill(rules, extractors, chunkIds, more, h.entities[i], later.entities[i]);
    }
    forall i: nat | i < |later.entities|
      ensures Untouched(g, later, i) || DescriptionComesFrom(rules, extractors, more, later.entities[i])
    {
      if Untouched(h, later, i) && !Untouched(g, h, i) {
        DescriptionComesStill(rules, extractors, chunkIds, more, h.entities[i]);
      }
    }
  }

  // ---- The entity loop of one chunk ----

  // What storing one entity of a chunk does.
  ghost predicate EntityStored(p: Progress, q: Progress, rules: NameRules, documentId: DocumentId, chunkId: ChunkId,
                               entity: ExtractedEntity) {
    var g, h := p.graph, q.graph;
    && h.relationships == g.relationships && q.relationshipIds == p.relationshipIds && EntityHasMention(q, rules, chunkId, entity)
    && (forall i | |g.mentions| <= i < |h.mentions| :: MentionFrom(h, rules, documentId, chunkId, entity, h.mentions[i]))
    && (forall i | |g.entities| <= i < |h.entities| :: RowFrom(rules, entity, h.entities[i]))
    && (forall i: nat | i < |h.entities| :: Untouched(g, h, i) || DescribedBy(rules, entity, h.entities[i]))
    && (forall id | id in q.entityIds && id !in p.entityIds :: StandsFor(h, rules, entity, id))
  }

  // The row an upsert returns, and what it did to the others.
  lemma UpsertedRow(g: Graph, rules: NameRules, entity: ExtractedEntity)
    requires UpsertEntity(g, rules, entity.entityType, entity.canonicalName, entity.description).Ok? && rules.Lawful()
    ensures var upserted := UpsertEntity(g, rules, entity.entityType, entity.canonicalName, entity.description).value;
      && Represents(upserted.graph, rules, entity, upserted.row.id)
      && upserted.graph.relationships == g.relationships && upserted.graph.mentions == g.mentions
      && (forall i | |g.entities| <= i < |upserted.graph.entities| :: RowFrom(rules, entity, upserted.graph.entities[i]))
      && (forall i: nat | i < |upserted.graph.entities| ::
            Untouched(g, upserted.graph, i) || DescribedBy(rules, entity, upserted.graph.entities[i]))
  {
    UpsertExactly(g, rules, entity.entityType, entity.canonicalName, entity.description);
    UpsertGrows(g, rules, entity.entityType, entity.canonicalName, entity.description);
    hide UpsertEntity, Grows;
    var upserted := UpsertEntity(g, rules, entity.entityType, entity.canonicalName, entity.description).value;
    var i :| 0 <= i < |upserted.graph.entities| && upserted.graph.entities[i] == upserted.row;
    assert IsRowOf(rules, entity, upserted.graph.entities[i]);
  }

  lemma RepresentsStandsFor(g: Graph, rules: NameRules, entity: ExtractedEntity, id: EntityId)
    requires Represents(g, rules, entity, id)
    ensures StandsFor(g, rules, entity, id)
  {
  }

  lemma EntityIsStoredExactly(p: Progress, rules: NameRules, documentId: DocumentId, chunkId: ChunkId, entity: ExtractedEntity)
    requires StoreEntity(p, rules, documentId, chunkId, entity).Ok? && rules.Lawful()
    ensures EntityStored(p, StoreEntity(p, rules, documentId, chunkId, entity).value, rules, documentId, chunkId, entity)
  {
    hide UpsertEntity, AddMention, Grows, Represents, StandsFor, RowFrom, DescribedBy;
    var name := entity.canonicalName;
    var upserted := UpsertEntity(p.graph, rules, entity.entityType, name, entity.description).value;
    var id := upserted.row.id;
    var mentioned := AddMention(upserted.graph, rules, id, documentId, chunkId, name, entity.confidence).value;
    UpsertedRow(p.graph, rules, entity);
    AddMentionExactly(upserted.graph, rules, id, documentId, chunkId, name, entity.confidence);
    AddMentionGrows(upserted.graph, rules, id, documentId, chunkId, name, entity.confidence);
    RepresentsStill(upserted.graph, mentioned.graph, rules, entity, id);
    RepresentsStandsFor(mentioned.graph, rules, entity, id);
    var j :| 0 <= j < |mentioned.graph.mentions| && mentioned.graph.mentions[j] == mentioned.row;
  }

  // What storing several does.
  ghost predicate EntitiesStored(p: Progress, q: Progress, rules: NameRules, documentId: DocumentId, chunkId: ChunkId,
                                 entities: seq<ExtractedEntity>) {
    var g, h := p.graph, q.graph;
    && h.relationships == g.relationships && q.relationshipIds == p.relationshipIds
    && (forall k | 0 <= k < |entities| :: EntityHasMention(q, rules, chunkId, entities[k]))
    && (forall i | |g.mentions| <= i < |h.mentions| ::
          exists k | 0 <= k < |entities| :: MentionFrom(h, rules, documentId, chunkId, entities[k], h.mentions[i]))
    && (forall i | |g.entities| <= i < |h.entities| ::
          exists k | 0 <= k < |entities| :: RowFrom(rules, entities[k], h.entities[i]))
    && (forall i: nat | i < |h.entities| ::
          Untouched(g, h, i) || exists k | 0 <= k < |entities| :: DescribedBy(rules, entities[k], h.entities[i]))
    && (forall id | id in q.entityIds && id !in p.entityIds ::
          exists k | 0 <= k < |entities| :: StandsFor(h, rules, entities[k], id))
  }

  lemma OneMoreEntity(p: Progress, q: Progress, r: Progress, rules: NameRules, documentId: DocumentId, chunkId: ChunkId,
                      entities: seq<ExtractedEntity>)
    requires entities != [] && Later(q, r)
    requires EntitiesStored(p, q, rules, documentId, chunkId, entities[..|entities| - 1])
    requires EntityStored(q, r, rules, documentId, chunkId, entities[|entities| - 1])
    ensures EntitiesStored(p, r, rules, documentId, chunkId, entities)
  {
    hide StandsFor, EntityHasMention, IsRowOf;
    var n, g, h := |entities| - 1, q.graph, r.graph;
    var init := entities[..n];
    forall k | 0 <= k < |entities| ensures EntityHasMention(r, rules, chunkId, entities[k]) {
      if k < n {
        assert init[k] == entities[k];
        MentionStays(q, r, rules, chunkId, entities[k]);
      }
    }
    forall i | |p.graph.mentions| <= i < |h.mentions|
      ensures exists k | 0 <= k < |entities| :: MentionFrom(h, rules, documentId, chunkId, entities[k], h.mentions[i])
    {
      if i < |g.mentions| {
        var k :| 0 <= k < n && MentionFrom(g, rules, documentId, chunkId, init[k], g.mentions[i]);
        StandsStill(g, h, rules, entities[k], g.mentions[i].entityId);
        assert MentionFrom(h, rules, documentId, chunkId, entities[k], h.mentions[i]);
      } else {
        assert MentionFrom(h, rules, documentId, chunkId, entities[n], h.mentions[i]);
      }
    }
    forall i | |p.graph.entities| <= i < |h.entities|
      ensures exists k | 0 <= k < |entities| :: RowFrom(rules, entities[k], h.entities[i])
    {
      if i < |g.entities| {
        var k :| 0 <= k < n && RowFrom(rules, init[k], g.entities[i]);
        RowFromStill(rules, entities[k], g.entities[i], h.entities[i]);
      } else {
        assert RowFrom(rules, entities[n], h.entities[i]);
      }
    }
    forall i: nat | i < |h.entities|
      ensures Untouched(p.graph, h, i) || exists k | 0 <= k < |entities| :: DescribedBy(rules, entities[k], h.entities[i])
    {
      if !Untouched(g, h, i) {
        assert DescribedBy(rules, entities[n], h.entities[i]);
      } else if !Untouched(p.graph, g, i) {
        var k :| 0 <= k < n && DescribedBy(rules, init[k], g.entities[i]);
        assert DescribedBy(rules, entities[k], h.entities[i]);
      }
    }
    forall id | id in r.entityIds && id !in p.entityIds ensures exists k | 0 <= k < |entities| :: StandsFor(h, rules, entities[k], id) {
      if id in q.entityIds {
        var k :| 0 <= k < n && StandsFor(g, rules, init[k], id);
        StandsStill(g, h, rules, entities[k], id);
      } else {
        assert StandsFor(h, rules, entities[n], id);
      }
    }
  }

  lemma RowFromStill(rules: NameRules, entity: ExtractedEntity, row: Entity, newer: Entity)
    requires SameRow(row, newer) && RowFrom(rules, entity, row)
    ensures RowFrom(rules, entity, newer)
  {
  }

  lemma {:induction false} EntitiesAreStoredExactly(p: Progress, rules: NameRules, documentId: DocumentId, chunkId: ChunkId,
                                                    entities: seq<ExtractedEntity>)
    requires StoreEntities(p, rules, documentId, chunkId, entities).Ok? && rules.Lawful()
    ensures EntitiesStored(p, StoreEntities(p, rules, documentId, chunkId, entities).value, rules, documentId, chunkId, entities)
  {
    hide StoreEntity, EntitiesStored, EntityStored, Grows, Sound;
    if entities == [] {
      NoEntityStored(p, rules, documentId, chunkId);
    } else {
      var n := |entities| - 1;
      var q := StoreEntities(p, rules, documentId, chunkId, entities[..n]).value;
      var r := StoreEntity(q, rules, documentId, chunkId, entities[n]).value;
      EntitiesAreStoredExactly(p, rules, documentId, chunkId, entities[..n]);
      EntityIsStoredExactly(q, rules, documentId, chunkId, entities[n]);
      StoreEntityReaches(q, rules, documentId, chunkId, entities[n]);
      OneMoreEntity(p, q, r, rules, documentId, chunkId, entities);
    }
  }

  lemma NoEntityStored(p: Progress, rules: NameRules, documentId: DocumentId, chunkId: ChunkId)
    ensures EntitiesStored(p, p, rules, documentId, chunkId, [])
  {
  }

  // ---- The relationship loop of one chunk ----

  // The row joins what the edge's keys resolve to.
  ghost predicate JoinsResolved(resolved: map<string, EntityId>, chunkId: ChunkId, edge: ExtractedRelationship, row: Relationship) {
    && edge.sourceKey in resolved && edge.targetKey in resolved
    && row.source == resolved[edge.sourceKey] && row.target == resolved[edge.targetKey]
    && row.kind == edge.kind && row.chunkId == chunkId
  }

  ghost predicate MadeBy(resolved: map<string, EntityId>, chunkId: ChunkId, edge: ExtractedRelationship, row: Relationship) {
    JoinsResolved(resolved, chunkId, edge, row) && row.description == edge.description && row.confidence == edge.confidence
  }

  ghost predicate IsJoined(resolved: map<string, EntityId>, chunkId: ChunkId, edge: ExtractedRelationship, q: Progress) {
    var rows := q.graph.relationships;
    exists i | 0 <= i < |rows| :: JoinsResolved(resolved, chunkId, edge, rows[i]) && rows[i].id in q.relationshipIds
  }

  ghost predicate CountedFor(resolved: map<string, EntityId>, chunkId: ChunkId, edge: ExtractedRelationship, g: Graph, id: RelationshipId) {
    exists i | 0 <= i < |g.relationships| :: g.relationships[i].id == id && JoinsResolved(resolved, chunkId, edge, g.relationships[i])
  }

  ghost predicate SomeMade(resolved: map<string, EntityId>, chunkId: ChunkId, edges: seq<ExtractedRelationship>, row: Relationship) {
    exists k | 0 <= k < |edges| :: MadeBy(resolved, chunkId, edges[k], row)
  }

  ghost predicate SomeCounted(resolved: map<string, EntityId>, chunkId: ChunkId, edges: seq<ExtractedRelationship>, g: Graph,
                              id: RelationshipId) {
    exists k | 0 <= k < |edges| :: CountedFor(resolved, chunkId, edges[k], g, id)
  }

  ghost predicate EdgesStored(p: Progress, q: Progress, chunkId: ChunkId, edges: seq<ExtractedRelationship>) {
    && q.resolved == p.resolved && q.graph.entities == p.graph.entities && q.graph.mentions == p.graph.mentions
    && p.graph.relationships <= q.graph.relationships && q.entityIds == p.entityIds && p.relationshipIds <= q.relationshipIds
    && (forall k | 0 <= k < |edges| :: IsJoined(p.resolved, chunkId, edges[k], q))
    && (forall i | |p.graph.relationships| <= i < |q.graph.relationships| ::
          SomeMade(p.resolved, chunkId, edges, q.graph.relationships[i]))
    && (forall id | id in q.relationshipIds && id !in p.relationshipIds :: SomeCounted(p.resolved, chunkId, edges, q.graph, id))
  }

  lemma EdgeIsStoredExactly(p: Progress, chunkId: ChunkId, edge: ExtractedRelationship)
    requires StoreRelationship(p, chunkId, edge).Ok?
    ensures EdgesStored(p, StoreRelationship(p, chunkId, edge).value, chunkId, [edge])
  {
    hide AddRelationship, Grows;
    var q := StoreRelationship(p, chunkId, edge).value;
    var source, target := p.resolved[edge.sourceKey], p.resolved[edge.targetKey];
    AddRelationshipExactly(p.graph, source, target, edge.kind, edge.description, edge.confidence, chunkId);
    var row := AddRelationship(p.graph, source, target, edge.kind, edge.description, edge.confidence, chunkId).value.row;
    var at :| 0 <= at < |q.graph.relationships| && q.graph.relationships[at] == row;
    assert JoinsResolved(p.resolved, chunkId, edge, row) && [edge][0] == edge;
    assert IsJoined(p.resolved, chunkId, [edge][0], q) && CountedFor(p.resolved, chunkId, [edge][0], q.graph, row.id);
    forall i | |p.graph.relationships| <= i < |q.graph.relationships|
      ensures SomeMade(p.resolved, chunkId, [edge], q.graph.relationships[i])
    {
      assert q.graph.relationships[i] == row;
      assert MadeBy(p.resolved, chunkId, [edge][0], row);
    }
  }

  lemma EdgesCompose(p: Progress, q: Progress, r: Progress, chunkId: ChunkId, first: seq<ExtractedRelationship>,
                     last: ExtractedRelationship)
    requires EdgesStored(p, q, chunkId, first) && EdgesStored(q, r, chunkId, [last])
    ensures EdgesStored(p, r, chunkId, first + [last])
  {
    hide IsJoined, SomeCounted, SomeMade;
    var edges := first + [last];
    forall k | 0 <= k < |edges| ensures IsJoined(p.resolved, chunkId, edges[k], r) {
      if k < |first| {
        assert edges[k] == first[k];
        JoinedStill(p.resolved, chunkId, first[k], q, r);
      } else {
        assert [last][0] == edges[k];
      }
    }
    forall id | id in r.relationshipIds && id !in p.relationshipIds ensures SomeCounted(p.resolved, chunkId, edges, r.graph, id) {
      SomeCountedStill(p.resolved, chunkId, first, last, q.graph, r.graph, id);
    }
    forall i | |p.graph.relationships| <= i < |r.graph.relationships|
      ensures SomeMade(p.resolved, chunkId, edges, r.graph.relationships[i])
    {
      assert i < |q.graph.relationships| ==> r.graph.relationships[i] == q.graph.relationships[i];
      SomeMadeStill(p.resolved, chunkId, first, last, r.graph.relationships[i]);
    }
  }

  lemma SomeMadeStill(resolved: map<string, EntityId>, chunkId: ChunkId, first: seq<ExtractedRelationship>,
                      last: ExtractedRelationship, row: Relationship)
    requires SomeMade(resolved, chunkId, first, row) || SomeMade(resolved, chunkId, [last], row)
    ensures SomeMade(resolved, chunkId, first + [last], row)
  {
    hide MadeBy;
    var edges := first + [last];
    if k :| 0 <= k < |first| && MadeBy(resolved, chunkId, first[k], row) {
      assert edges[k] == first[k];
    } else {
      assert [last][0] == last == edges[|first|];
    }
  }

  lemma SomeCountedStill(resolved: map<string, EntityId>, chunkId: ChunkId, first: seq<ExtractedRelationship>,
                         last: ExtractedRelationship, g: Graph, h: Graph, id: RelationshipId)
    requires g.relationships <= h.relationships
    requires SomeCounted(resolved, chunkId, first, g, id) || SomeCounted(resolved, chunkId, [last], h, id)
    ensures SomeCounted(resolved, chunkId, first + [last], h, id)
  {
    hide CountedFor;
    var edges := first + [last];
    if k :| 0 <= k < |first| && CountedFor(resolved, chunkId, first[k], g, id) {
      CountedForStill(resolved, chunkId, first[k], g, h, id);
      assert edges[k] == first[k];
    } else {
      assert [last][0] == last == edges[|first|];
    }
  }

  lemma JoinedStill(resolved: map<string, EntityId>, chunkId: ChunkId, edge: ExtractedRelationship, q: Progress, r: Progress)
    requires q.graph.relationships <= r.graph.relationships && q.relationshipIds <= r.relationshipIds
    requires IsJoined(resolved, chunkId, edge, q)
    ensures IsJoined(resolved, chunkId, edge, r)
  {
    hide JoinsResolved;
    var rows := q.graph.relationships;
    var i :| 0 <= i < |rows| && JoinsResolved(resolved, chunkId, edge, rows[i]) && rows[i].id in q.relationshipIds;
    assert r.graph.relationships[i] == rows[i];
  }

  lemma CountedForStill(resolved: map<string, EntityId>, chunkId: ChunkId, edge: ExtractedRelationship, g: Graph, h: Graph,
                        id: RelationshipId)
    requires g.relationships <= h.relationships && CountedFor(resolved, chunkId, edge, g, id)
    ensures CountedFor(resolved, chunkId, edge, h, id)
  {
    hide JoinsResolved;
    var i :| 0 <= i < |g.relationships| && g.relationships[i].id == id && JoinsResolved(resolved, chunkId, edge, g.relationships[i]);
    assert h.relationships[i] == g.relationships[i];
  }

  lemma {:induction false} EdgesAreStoredExactly(p: Progress, chunkId: ChunkId, edges: seq<ExtractedRelationship>)
    requires StoreRelationships(p, chunkId, edges).Ok?
    ensures EdgesStored(p, StoreRelationships(p, chunkId, edges).value, chunkId, edges)
  {
    hide StoreRelationship, EdgesStored;
    if edges == [] {
      NoEdgeStored(p, chunkId);
    } else {
      var n := |edges| - 1;
      var q := StoreRelationships(p, chunkId, edges[..n]).value;
      EdgesAreStoredExactly(p, chunkId, edges[..n]);
      EdgeIsStoredExactly(q, chunkId, edges[n]);
      EdgesCompose(p, q, StoreRelationship(q, chunkId, edges[n]).value, chunkId, edges[..n], edges[n]);
      assert edges[..n] + [edges[n]] == edges;
    }
  }

  lemma NoEdgeStored(p: Progress, chunkId: ChunkId)
    ensures EdgesStored(p, p, chunkId, [])
  {
  }

  // ---- A whole chunk ----

  lemma KeyStandsFor(p: Progress, rules: NameRules, documentId: DocumentId, chunkId: ChunkId, entities: seq<ExtractedEntity>, key: string)
    requires ReadyForEdges(p, rules, documentId, chunkId, entities) && key in LocalKeys(entities) && key in p.resolved
    ensures EndOf(p.graph, rules, entities, key, p.resolved[key])
  {
    hide Sound, GoodEntities, StoredChunk;
    var i :| 0 <= i < |entities| && entities[i].localKey == key;
    assert ResolvesTo(p, rules, entities[i]);
    var j :| 0 <= j < |p.graph.entities| && EntityKeys(p.graph.entities)[j] == IdentityOf(rules, entities[i])
             && EntityIds(p.graph.entities)[j] == p.resolved[key];
    assert IsRowOf(rules, entities[i], p.graph.entities[j]);
    assert StandsFor(p.graph, rules, entities[i], p.resolved[key]);
  }

  // A row that joins what the keys resolve to runs along the edge.
  lemma JoinedRunsAlong(q: Progress, h: Graph, rules: NameRules, extractors: Extractors, documentId: DocumentId, chunkId: ChunkId,
                        edge: ExtractedRelationship, row: Relationship)
    requires extractors.Entities(rules, chunkId).Ok? && Grows(q.graph, h)
    requires ReadyForEdges(q, rules, documentId, chunkId, extractors.Entities(rules, chunkId).value)
    requires var keys := LocalKeys(extractors.Entities(rules, chunkId).value); edge.sourceKey in keys && edge.targetKey in keys
    requires JoinsResolved(q.resolved, chunkId, edge, row)
    ensures RunsAlong(h, rules, extractors, chunkId, edge, row)
  {
    hide ReadyForEdges, LocalKeys, EndOf, Grows;
    var entities := extractors.Entities(rules, chunkId).value;
    KeyStandsFor(q, rules, documentId, chunkId, entities, edge.sourceKey);
    KeyStandsFor(q, rules, documentId, chunkId, entities, edge.targetKey);
    RunsStill(q.graph, h, rules, extractors, chunkId, edge, row);
  }

  lemma EdgesHaveRows(q: Progress, r: Progress, rules: NameRules, extractors: Extractors, documentId: DocumentId, chunkId: ChunkId)
    requires extractors.Entities(rules, chunkId).Ok?
    requires extractors.Relationships(chunkId, extractors.Entities(rules, chunkId).value).Ok?
    requires ReadyForEdges(q, rules, documentId, chunkId, extractors.Entities(rules, chunkId).value) && Grows(q.graph, r.graph)
    requires var entities := extractors.Entities(rules, chunkId).value;
      var edges := extractors.Relationships(chunkId, entities).value;
      GoodEdges(entities, edges) && EdgesStored(q, r, chunkId, edges)
    ensures forall edge | AcceptedEdge(rules, extractors, chunkId, edge) :: EdgeHasRow(r, rules, extractors, chunkId, edge)
    ensures NewIdsComeFrom(q, r, rules, extractors, [chunkId])
    ensures forall i | |q.graph.relationships| <= i < |r.graph.relationships| ::
      RelationshipComesFrom(r.graph, rules, extractors, [chunkId], r.graph.relationships[i])
  {
    hide ReadyForEdges, LocalKeys, RunsAlong, JoinsResolved, Grows;
    var entities := extractors.Entities(rules, chunkId).value;
    var edges := extractors.Relationships(chunkId, entities).value;
    var rows := r.graph.relationships;
    forall edge | AcceptedEdge(rules, extractors, chunkId, edge) ensures EdgeHasRow(r, rules, extractors, chunkId, edge) {
      var k :| 0 <= k < |edges| && edges[k] == edge;
      assert IsJoined(q.resolved, chunkId, edges[k], r);
      var i :| 0 <= i < |rows| && JoinsResolved(q.resolved, chunkId, edges[k], rows[i]) && rows[i].id in r.relationshipIds;
      JoinedRunsAlong(q, r.graph, rules, extractors, documentId, chunkId, edge, rows[i]);
    }
    forall i | |q.graph.relationships| <= i < |rows| ensures RelationshipComesFrom(r.graph, rules, extractors, [chunkId], rows[i]) {
      var k :| 0 <= k < |edges| && MadeBy(q.resolved, chunkId, edges[k], rows[i]);
      JoinedRunsAlong(q, r.graph, rules, extractors, documentId, chunkId, edges[k], rows[i]);
      assert chunkId in [chunkId] && EdgeMadeIt(r.graph, rules, extractors, chunkId, edges[k], rows[i]);
    }
    forall id | id in r.relationshipIds && id !in q.relationshipIds
      ensures CountedEdgeComesFrom(r.graph, rules, extractors, [chunkId], id)
    {
      var k :| 0 <= k < |edges| && CountedFor(q.resolved, chunkId, edges[k], r.graph, id);
      var i :| 0 <= i < |rows| && rows[i].id == id && JoinsResolved(q.resolved, chunkId, edges[k], rows[i]);
      JoinedRunsAlong(q, r.graph, rules, extractors, documentId, chunkId, edges[k], rows[i]);
      assert chunkId in [chunkId] && AcceptedEdge(rules, extractors, chunkId, edges[k]);
    }
  }

  lemma EntitiesHaveRows(p: Progress, q: Progress, rules: NameRules, extractors: Extractors, documentId: DocumentId, chunkId: ChunkId)
    requires extractors.Entities(rules, chunkId).Ok?
    requires EntitiesStored(p, q, rules, documentId, chunkId, extractors.Entities(rules, chunkId).value)
    ensures forall entity | Accepted(rules, extractors, chunkId, entity) :: EntityHasMention(q, rules, chunkId, entity)
    ensures NewRowsComeFrom(p.graph, q.graph, rules, extractors, documentId, [chunkId])
    ensures NewIdsComeFrom(p, q, rules, extractors, [chunkId])
  {
    hide MentionFrom, RowFrom, EntityHasMention, StandsFor, DescribedBy;
    var entities, g, h := extractors.Entities(rules, chunkId).value, p.graph, q.graph;
    assert forall k | 0 <= k < |entities| :: chunkId in [chunkId] && Accepted(rules, extractors, chunkId, entities[k]);
    hide Accepted;
    forall i | |g.mentions| <= i < |h.mentions| ensures MentionComesFrom(h, rules, extractors, documentId, [chunkId], h.mentions[i]) {
      var k :| 0 <= k < |entities| && MentionFrom(h, rules, documentId, chunkId, entities[k], h.mentions[i]);
      assert Accepted(rules, extractors, chunkId, entities[k]);
    }
    forall i | |g.entities| <= i < |h.entities| ensures EntityComesFrom(rules, extractors, [chunkId], h.entities[i]) {
      var k :| 0 <= k < |entities| && RowFrom(rules, entities[k], h.entities[i]);
      assert Accepted(rules, extractors, chunkId, entities[k]);
    }
    forall i: nat | i < |h.entities| && !Untouched(g, h, i)
      ensures DescriptionComesFrom(rules, extractors, [chunkId], h.entities[i])
    {
      var k :| 0 <= k < |entities| && DescribedBy(rules, entities[k], h.entities[i]);
      assert Accepted(rules, extractors, chunkId, entities[k]);
    }
    forall id | id in q.entityIds && id !in p.entityIds ensures CountedEntityComesFrom(h, rules, extractors, [chunkId], id) {
      var k :| 0 <= k < |entities| && StandsFor(h, rules, entities[k], id);
      assert Accepted(rules, extractors, chunkId, entities[k]);
    }
  }

  lemma ChunkHasItsRows(p: Progress, rules: NameRules, extractors: Extractors, documentId: DocumentId, chunkId: ChunkId)
    requires Sound(p.graph) && rules.Lawful() && extractors.SchemaValid() && StoredChunk(p.graph, documentId, chunkId)
    requires EnrichChunk(p, rules, extractors, documentId, chunkId).Ok?
    ensures var r := EnrichChunk(p, rules, extractors, documentId, chunkId).value;
      && ChunkHasRows(r, rules, extractors, chunkId) && NewIdsComeFrom(p, r, rules, extractors, [chunkId])
      && NewRowsComeFrom(p.graph, r.graph, rules, extractors, documentId, [chunkId])
  {
    hide StoreEntities, StoreRelationships, Sound, ReadyForEdges, GoodEdges, StoredChunk, EntitiesStored, EdgeHasRow,
         EntityHasMention, NewRowsComeFrom, AcceptedEdge, Accepted, Grows, Recorded, ValidEntities, ValidRelationships;
    var start, entities := p.(resolved := map[]), extractors.Entities(rules, chunkId).value;
    var q, edges := StoreEntities(start, rules, documentId, chunkId, entities).value, extractors.Relationships(chunkId, entities).value;
    var r := StoreRelationships(q, chunkId, edges).value;
    ChunkIsReady(p, rules, extractors, documentId, chunkId);
    EntitiesAreStoredExactly(start, rules, documentId, chunkId, entities);
    EntitiesHaveRows(start, q, rules, extractors, documentId, chunkId);
    EdgesOfChunk(extractors, chunkId, entities);
    EdgesAreStoredExactly(q, chunkId, edges);
    StoreRelationshipsReaches(q, chunkId, edges);
    EdgesHaveRows(q, r, rules, extractors, documentId, chunkId);
    forall entity | Accepted(rules, extractors, chunkId, entity) ensures EntityHasMention(r, rules, chunkId, entity) {
      MentionStays(q, r, rules, chunkId, entity);
    }
    IdsComeStill(start, q, r, rules, extractors, [chunkId], [chunkId]);
    assert NewIdsComeFrom(p, r, rules, extractors, [chunkId]);
    hide NewIdsComeFrom;
    OnlyEdgesAdded(q.graph, r.graph, rules, extractors, documentId, chunkId);
    ComesStill(p.graph, q.graph, r.graph, rules, extractors, documentId, [chunkId], [chunkId]);
  }

  lemma OnlyEdgesAdded(g: Graph, h: Graph, rules: NameRules, extractors: Extractors, documentId: DocumentId, chunkId: ChunkId)
    requires h.entities == g.entities && h.mentions == g.mentions
    requires forall i | |g.relationships| <= i < |h.relationships| ::
      RelationshipComesFrom(h, rules, extractors, [chunkId], h.relationships[i])
    ensures NewRowsComeFrom(g, h, rules, extractors, documentId, [chunkId])
  {
    hide RelationshipComesFrom;
  }

  // ---- The whole document ----

  lemma {:induction false} ChunksHaveTheirRows(p: Progress, rules: NameRules, extractors: Extractors, documentId: DocumentId,
                                               chunkIds: seq<ChunkId>)
    requires Sound(p.graph) && rules.Lawful() && extractors.SchemaValid()
    requires forall c | c in chunkIds :: StoredChunk(p.graph, documentId, c)
    requires EnrichChunks(p, rules, extractors, documentId, chunkIds).Ok?
    ensures var r := EnrichChunks(p, rules, extractors, documentId, chunkIds).value;
      && (forall c | c in chunkIds :: ChunkHasRows(r, rules, extractors, c)) && NewIdsComeFrom(p, r, rules, extractors, chunkIds)
      && NewRowsComeFrom(p.graph, r.graph, rules, extractors, documentId, chunkIds)
  {
    hide EnrichChunk, Sound, ChunkHasRows, NewRowsComeFrom, NewIdsComeFrom, Grows, Recorded;
    if chunkIds == [] {
      NothingNew(p, rules, extractors, documentId);
    } else {
      var n := |chunkIds| - 1;
      var init, last := chunkIds[..n], chunkIds[n];
      assert chunkIds == init + [last] && last in chunkIds;
      var q := EnrichChunks(p, rules, extractors, documentId, init).value;
      var r := EnrichChunk(q, rules, extractors, documentId, last).value;
      ChunksHaveTheirRows(p, rules, extractors, documentId, init);
      EnrichChunksReaches(p, rules, extractors, documentId, init);
      SameChunks(p.graph, q.graph, documentId, last);
      ChunkHasItsRows(q, rules, extractors, documentId, last);
      EnrichChunkReaches(q, rules, extractors, documentId, last);
      forall c | c in chunkIds ensures ChunkHasRows(r, rules, extractors, c) {
        if c in init {
          RowsStay(q, r, rules, extractors, c);
        } else {
          assert c == last;
        }
      }
      MoreChunks(q.graph, r.graph, rules, extractors, documentId, last, chunkIds);
      MoreIds(q, r, rules, extractors, last, chunkIds);
      IdsComeStill(p, q, r, rules, extractors, init, chunkIds);
      ComesStill(p.graph, q.graph, r.graph, rules, extractors, documentId, init, chunkIds);
    }
  }

  lemma NothingNew(p: Progress, rules: NameRules, extractors: Extractors, documentId: DocumentId)
    ensures NewRowsComeFrom(p.graph, p.graph, rules, extractors, documentId, []) && NewIdsComeFrom(p, p, rules, extractors, [])
  {
  }

  lemma SameChunks(g: Graph, h: Graph, documentId: DocumentId, chunkId: ChunkId)
    requires Grows(g, h) && StoredChunk(g, documentId, chunkId)
    ensures StoredChunk(h, documentId, chunkId)
  {
  }

  lemma MoreChunks(g: Graph, h: Graph, rules: NameRules, extractors: Extractors, documentId: DocumentId, chunkId: ChunkId,
                   more: seq<ChunkId>)
    requires chunkId in more && NewRowsComeFrom(g, h, rules, extractors, documentId, [chunkId])
    ensures NewRowsComeFrom(g, h, rules, extractors, documentId, more)
  {
    hide EdgeMadeIt, Accepted, MentionFrom, RowFrom;
    forall i | |g.relationships| <= i < |h.relationships|
      ensures RelationshipComesFrom(h, rules, extractors, more, h.relationships[i])
    {
      assert RelationshipComesFrom(h, rules, extractors, [chunkId], h.relationships[i]);
    }
    forall i | |g.mentions| <= i < |h.mentions| ensures MentionComesFrom(h, rules, extractors, documentId, more, h.mentions[i]) {
      assert MentionComesFrom(h, rules, extractors, documentId, [chunkId], h.mentions[i]);
    }
    forall i | |g.entities| <= i < |h.entities| ensures EntityComesFrom(rules, extractors, more, h.entities[i]) {
      assert EntityComesFrom(rules, extractors, [chunkId], h.entities[i]);
    }
    forall i: nat | i < |h.entities| && !Untouched(g, h, i) ensures DescriptionComesFrom(rules, extractors, more, h.entities[i]) {
      DescriptionComesStill(rules, extractors, [chunkId], more, h.entities[i]);
    }
  }

  lemma MoreIds(p: Progress, q: Progress, rules: NameRules, extractors: Extractors, chunkId: ChunkId, more: seq<ChunkId>)
    requires chunkId in more && NewIdsComeFrom(p, q, rules, extractors, [chunkId])
    ensures NewIdsComeFrom(p, q, rules, extractors, more)
  {
    hide CountedEntityComesFrom, CountedEdgeComesFrom;
    GrowsSelf(q.graph);
    forall id | id in q.entityIds && id !in p.entityIds ensures CountedEntityComesFrom(q.graph, rules, extractors, more, id) {
      CountedEntityStill(q.graph, q.graph, rules, extractors, [chunkId], more, id);
    }
    forall id | id in q.relationshipIds && id !in p.relationshipIds ensures CountedEdgeComesFrom(q.graph, rules, extractors, more, id) {
      CountedEdgeStill(q.graph, q.graph, rules, extractors, [chunkId], more, id);
    }
  }

  /**
    After a finished enrichment every accepted entity of every chunk has a mention in it and every accepted relationship
    a row that runs from its source to its target, both counted; and every new row and every counted id stands for
    something that was accepted.
  */
  lemma EnrichedDocumentHasItsRows(g: Graph, rules: NameRules, extractors: Extractors, documentId: DocumentId)
    requires Sound(g) && rules.Lawful() && extractors.SchemaValid()
    requires EnrichDocument(g, rules, extractors, documentId).Ok?
    ensures var p, chunkIds := EnrichDocument(g, rules, extractors, documentId).value, g.documents[documentId].chunkIds;
      && (forall c | c in chunkIds :: ChunkHasRows(p, rules, extractors, c))
      && NewRowsComeFrom(g, p.graph, rules, extractors, documentId, chunkIds)
      && (forall id | id in p.entityIds :: CountedEntityComesFrom(p.graph, rules, extractors, chunkIds, id))
      && (forall id | id in p.relationshipIds :: CountedEdgeComesFrom(p.graph, rules, extractors, chunkIds, id))
  {
    hide EnrichChunks, ChunkHasRows, NewRowsComeFrom, SoundEntities, SoundMentions, SoundRelationships, CountedEntityComesFrom,
         CountedEdgeComesFrom;
    assert SoundDocuments(g.chunks, g.documents);
    ChunksHaveTheirRows(Begin(g), rules, extractors, documentId, g.documents[documentId].chunkIds);
  }
}
