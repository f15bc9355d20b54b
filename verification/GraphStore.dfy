/**
  The knowledge-graph tables and the three writing operations of `KnowledgeGraphRepository`.

  A table is a sequence of rows in `(created_at, id)` order.  `Graph` is the value of all tables;
  `KnowledgeGraphStore` is the session that changes them in place and commits or rolls back.
*/
module GraphStore {
  import opened Collections
  import opened Wrappers

  type EntityId = nat
  type MentionId = nat
  type RelationshipId = nat
  type ChunkId = nat
  type DocumentId = nat

  datatype EntityType =
    | Organization | Process | System | Policy | Regulation | Risk
    | DataAsset | AiCapability | Control | Role | Other

  datatype RelationshipType =
    | Uses | DependsOn | PartOf | GovernedBy | AffectedBy | CreatesRisk
    | MitigatedBy | Requires | Produces | Consumes | RelatedTo

  // Unicode normalisation with whitespace joining, and case folding, as opaque functions.
  datatype NameRules = NameRules(canonicalize: string -> string, casefold: string -> string) {
    function Normalize(name: string): string {
      casefold(canonicalize(name))
    }

    // All that is used of the two: a canonical name is its own canonical form.
    ghost predicate Lawful() {
      forall name :: canonicalize(canonicalize(name)) == canonicalize(name)
    }
  }

  datatype Entity = Entity(
    id: EntityId, entityType: EntityType, canonicalName: string, normalizedName: string, description: Option<string>)

  datatype Mention = Mention(
    id: MentionId, entityId: EntityId, documentId: DocumentId, chunkId: ChunkId, text: string, confidence: real)

  datatype Relationship = Relationship(
    id: RelationshipId, source: EntityId, target: EntityId, kind: RelationshipType,
    description: Option<string>, confidence: real, chunkId: ChunkId)

  datatype Chunk = Chunk(id: ChunkId, documentId: DocumentId, content: string)

  // `chunkIds` is what `list_by_document` returns: the chunks of the document by chunk index.
  datatype Document = Document(id: DocumentId, title: string, chunkIds: seq<ChunkId>)

  // The columns of the uniqueness constraints.
  type EntityKey = (EntityType, string)
  type MentionKey = (EntityId, ChunkId)
  type RelationshipKey = (EntityId, EntityId, RelationshipType, ChunkId)

  function EntityKeys(rows: seq<Entity>): seq<EntityKey> {
    seq(|rows|, i requires 0 <= i < |rows| => (rows[i].entityType, rows[i].normalizedName))
  }

  function EntityIds(rows: seq<Entity>): seq<EntityId> {
    seq(|rows|, i requires 0 <= i < |rows| => rows[i].id)
  }

  function MentionKeys(rows: seq<Mention>): seq<MentionKey> {
    seq(|rows|, i requires 0 <= i < |rows| => (rows[i].entityId, rows[i].chunkId))
  }

  function RelationshipKeys(rows: seq<Relationship>): seq<RelationshipKey> {
    seq(|rows|, i requires 0 <= i < |rows| => (rows[i].source, rows[i].target, rows[i].kind, rows[i].chunkId))
  }

  function RelationshipIds(rows: seq<Relationship>): seq<RelationshipId> {
    seq(|rows|, i requires 0 <= i < |rows| => rows[i].id)
  }

  datatype Graph = Graph(
    entities: seq<Entity>, mentions: seq<Mention>, relationships: seq<Relationship>,
    chunks: map<ChunkId, Chunk>, documents: map<DocumentId, Document>, nextId: nat)

  datatype GraphError =
    | EmptyName | ConfidenceOutOfRange | UnknownEntity | UnknownChunk | WrongDocument
    | SelfRelationship | UnknownSource | UnknownTarget

  datatype Stored<+R> = Stored(graph: Graph, row: R)

  // `where key = k`: the index of the first such row.
  function IndexOf<K(==)>(keys: seq<K>, k: K): (found: Option<nat>)
    ensures found.Some? ==> found.value < |keys| && keys[found.value] == k && k !in keys[..found.value]
    ensures found.None? ==> k !in keys
  {
    if keys == [] then None
    else if keys[0] == k then Some(0)
    else match IndexOf(keys[1..], k)
      case None => None
      case Some(i) => assert keys[..i + 1] == [keys[0]] + keys[1..][..i]; Some(i + 1)
  }

  lemma {:induction false} IndexIs<K>(keys: seq<K>, k: K, at: nat)
    requires at < |keys| && keys[at] == k && forall j | 0 <= j < at :: keys[j] != k
    ensures IndexOf(keys, k) == Some(at)
  {
    if at > 0 {
      IndexIs(keys[1..], k, at - 1);
    }
  }

  lemma NotBefore<K>(keys: seq<K>, k: K)
    ensures match IndexOf(keys, k)
      case None => forall j | 0 <= j < |keys| :: keys[j] != k
      case Some(at) => forall j | 0 <= j < at :: keys[j] != k
  {
    var found := IndexOf(keys, k);
    if found.Some? {
      forall j | 0 <= j < found.value ensures keys[j] != k {
        assert keys[..found.value][j] == keys[j];
      }
    }
  }

  // ---- The operations on graph values ----

  predicate InUnitRange(x: real) {
    0.0 <= x <= 1.0
  }

  // A description is filled in when the stored one is missing and the new one is not empty.
  function Describe(entity: Entity, description: Option<string>): Entity {
    if entity.description.None? && description.Some? && description.value != ""
    then entity.(description := description) else entity
  }

  function UpsertEntity(g: Graph, rules: NameRules, entityType: EntityType, name: string,
                        description: Option<string>): Result<Stored<Entity>, GraphError> {
    var canonical := rules.canonicalize(name);
    var normalized := rules.Normalize(canonical);
    if normalized == "" then Err(EmptyName)
    else match IndexOf(EntityKeys(g.entities), (entityType, normalized))
      case None =>
        var entity := Entity(g.nextId, entityType, canonical, normalized, description);
        Ok(Stored(g.(entities := g.entities + [entity], nextId := g.nextId + 1), entity))
      case Some(i) =>
        var entity := Describe(g.entities[i], description);
        Ok(Stored(g.(entities := g.entities[i := entity]), entity))
  }

  function AddMention(g: Graph, rules: NameRules, entityId: EntityId, documentId: DocumentId, chunkId: ChunkId,
                      text: string, confidence: real): Result<Stored<Mention>, GraphError> {
    if !InUnitRange(confidence) then Err(ConfidenceOutOfRange)
    else if entityId !in EntityIds(g.entities) then Err(UnknownEntity)
    else if chunkId !in g.chunks then Err(UnknownChunk)
    else if g.chunks[chunkId].documentId != documentId then Err(WrongDocument)
    else match IndexOf(MentionKeys(g.mentions), (entityId, chunkId))
      case None =>
        var mention := Mention(g.nextId, entityId, documentId, chunkId, rules.canonicalize(text), confidence);
        Ok(Stored(g.(mentions := g.mentions + [mention], nextId := g.nextId + 1), mention))
      case Some(i) => Ok(Stored(g, g.mentions[i]))
  }

  function AddRelationship(g: Graph, source: EntityId, target: EntityId, kind: RelationshipType,
                           description: Option<string>, confidence: real, chunkId: ChunkId)
    : Result<Stored<Relationship>, GraphError> {
    if !InUnitRange(confidence) then Err(ConfidenceOutOfRange)
    else if source == target then Err(SelfRelationship)
    else if source !in EntityIds(g.entities) then Err(UnknownSource)
    else if target !in EntityIds(g.entities) then Err(UnknownTarget)
    else if chunkId !in g.chunks then Err(UnknownChunk)
    else match IndexOf(RelationshipKeys(g.relationships), (source, target, kind, chunkId))
      case None =>
        var relationship := Relationship(g.nextId, source, target, kind, description, confidence, chunkId);
        Ok(Stored(g.(relationships := g.relationships + [relationship], nextId := g.nextId + 1), relationship))
      case Some(i) => Ok(Stored(g, g.relationships[i]))
  }

  // ---- Uniqueness and referential integrity ----

  ghost predicate SoundEntities(g: Graph) {
    && Distinct(EntityIds(g.entities)) && Distinct(EntityKeys(g.entities))
    && forall i | 0 <= i < |g.entities| :: g.entities[i].id < g.nextId && g.entities[i].normalizedName != ""
  }

  ghost predicate SoundMention(g: Graph, mention: Mention) {
    && mention.id < g.nextId && InUnitRange(mention.confidence)
    && mention.entityId in EntityIds(g.entities)
    && mention.chunkId in g.chunks && g.chunks[mention.chunkId].documentId == mention.documentId
  }

  ghost predicate SoundMentions(g: Graph) {
    && Distinct(MentionKeys(g.mentions))
    && forall i | 0 <= i < |g.mentions| :: SoundMention(g, g.mentions[i])
  }

  ghost predicate SoundRelationship(g: Graph, relationship: Relationship) {
    && relationship.id < g.nextId && InUnitRange(relationship.confidence)
    && relationship.source != relationship.target
    && relationship.source in EntityIds(g.entities) && relationship.target in EntityIds(g.entities)
    && relationship.chunkId in g.chunks
  }

  ghost predicate SoundRelationships(g: Graph) {
    && Distinct(RelationshipKeys(g.relationships)) && Distinct(RelationshipIds(g.relationships))
    && forall i | 0 <= i < |g.relationships| :: SoundRelationship(g, g.relationships[i])
  }

  ghost predicate Sound(g: Graph) {
    && SoundEntities(g) && SoundMentions(g) && SoundRelationships(g)
    && SoundDocuments(g.chunks, g.documents)
  }

  ghost predicate SoundDocuments(chunks: map<ChunkId, Chunk>, documents: map<DocumentId, Document>) {
    && (forall c | c in chunks :: chunks[c].id == c && chunks[c].documentId in documents)
    && (forall d | d in documents :: documents[d].id == d)
    && (forall d, c | d in documents && c in documents[d].chunkIds :: c in chunks && chunks[c].documentId == d)
  }

  // Rows only ever gain a description or are appended.
  ghost predicate SameRow(older: Entity, newer: Entity) {
    && older == newer.(description := older.description)
    && (older.description.Some? ==> newer.description == older.description)
  }

  ghost predicate Grows(older: Graph, newer: Graph) {
    && |older.entities| <= |newer.entities|
    && (forall i | 0 <= i < |older.entities| :: SameRow(older.entities[i], newer.entities[i]))
    && older.mentions <= newer.mentions && older.relationships <= newer.relationships
    && older.chunks == newer.chunks && older.documents == newer.documents
    && older.nextId <= newer.nextId
  }

  lemma GrowsTransitive(a: Graph, b: Graph, c: Graph)
    requires Grows(a, b) && Grows(b, c)
    ensures Grows(a, c)
  {
  }

  lemma GrowsKeys(older: Graph, newer: Graph)
    requires Grows(older, newer)
    ensures EntityKeys(older.entities) <= EntityKeys(newer.entities)
    ensures EntityIds(older.entities) <= EntityIds(newer.entities)
    ensures MentionKeys(older.mentions) <= MentionKeys(newer.mentions)
    ensures RelationshipKeys(older.relationships) <= RelationshipKeys(newer.relationships)
  {
    var n := |older.entities|;
    assert forall i | 0 <= i < n :: SameRow(older.entities[i], newer.entities[i]);
    assert EntityKeys(older.entities) == EntityKeys(newer.entities)[..n];
    assert EntityIds(older.entities) == EntityIds(newer.entities)[..n];
  }

  /** What `upsert_entity` does to the tables. */
  lemma UpsertGrows(g: Graph, rules: NameRules, entityType: EntityType, name: string, description: Option<string>)
    requires UpsertEntity(g, rules, entityType, name, description).Ok?
    ensures var stored := UpsertEntity(g, rules, entityType, name, description).value;
      && Grows(g, stored.graph)
      && stored.row in stored.graph.entities
      && stored.graph.mentions == g.mentions && stored.graph.relationships == g.relationships
      && stored.row.entityType == entityType
      && stored.row.normalizedName == rules.Normalize(rules.canonicalize(name))
  {
    var key := (entityType, rules.Normalize(rules.canonicalize(name)));
    var stored := UpsertEntity(g, rules, entityType, name, description).value;
    match IndexOf(EntityKeys(g.entities), key) {
      case None => assert stored.graph.entities[|g.entities|] == stored.row;
      case Some(i) =>
        assert EntityKeys(g.entities)[i] == key;
        assert stored.graph.entities[i] == stored.row;
    }
  }

  lemma UpsertKeepsEntities(g: Graph, rules: NameRules, entityType: EntityType, name: string, description: Option<string>)
    requires SoundEntities(g) && UpsertEntity(g, rules, entityType, name, description).Ok?
    ensures SoundEntities(UpsertEntity(g, rules, entityType, name, description).value.graph)
  {
    var normalized := rules.Normalize(rules.canonicalize(name));
    var stored := UpsertEntity(g, rules, entityType, name, description).value;
    match IndexOf(EntityKeys(g.entities), (entityType, normalized)) {
      case None =>
        assert EntityKeys(stored.graph.entities) == EntityKeys(g.entities) + [(entityType, normalized)];
        assert EntityIds(stored.graph.entities) == EntityIds(g.entities) + [g.nextId];
        DistinctAppend(EntityKeys(g.entities), (entityType, normalized));
        assert g.nextId !in EntityIds(g.entities);
        DistinctAppend(EntityIds(g.entities), g.nextId);
      case Some(i) =>
        assert EntityKeys(stored.graph.entities) == EntityKeys(g.entities);
        assert EntityIds(stored.graph.entities) == EntityIds(g.entities);
    }
  }

  // Growing the entity table cannot break what refers to it.
  lemma ReferencesSurvive(older: Graph, newer: Graph)
    requires Grows(older, newer) && older.mentions == newer.mentions && older.relationships == newer.relationships
    ensures SoundMentions(older) ==> SoundMentions(newer)
    ensures SoundRelationships(older) ==> SoundRelationships(newer)
  {
    GrowsKeys(older, newer);
    assert forall id | id in EntityIds(older.entities) :: id in EntityIds(newer.entities);
  }

  /** `upsert_entity` keeps the tables sound. */
  lemma UpsertIsSound(g: Graph, rules: NameRules, entityType: EntityType, name: string, description: Option<string>)
    requires Sound(g) && UpsertEntity(g, rules, entityType, name, description).Ok?
    ensures Sound(UpsertEntity(g, rules, entityType, name, description).value.graph)
  {
    UpsertGrows(g, rules, entityType, name, description);
    UpsertKeepsEntities(g, rules, entityType, name, description);
    hide IndexOf, EntityKeys, EntityIds, SoundEntities, SoundMentions, SoundRelationships;
    ReferencesSurvive(g, UpsertEntity(g, rules, entityType, name, description).value.graph);
  }

  lemma AddMentionGrows(g: Graph, rules: NameRules, entityId: EntityId, documentId: DocumentId, chunkId: ChunkId,
                        text: string, confidence: real)
    requires AddMention(g, rules, entityId, documentId, chunkId, text, confidence).Ok?
    ensures var stored := AddMention(g, rules, entityId, documentId, chunkId, text, confidence).value;
      && Grows(g, stored.graph) && stored.graph.entities == g.entities && stored.graph.relationships == g.relationships
      && stored.row in stored.graph.mentions && stored.row.entityId == entityId && stored.row.chunkId == chunkId
  {
    var stored := AddMention(g, rules, entityId, documentId, chunkId, text, confidence).value;
    match IndexOf(MentionKeys(g.mentions), (entityId, chunkId)) {
      case None => assert stored.graph.mentions[|g.mentions|] == stored.row;
      case Some(i) => assert MentionKeys(g.mentions)[i] == (entityId, chunkId);
    }
  }

  /** `add_mention` keeps the tables sound. */
  lemma AddMentionIsSound(g: Graph, rules: NameRules, entityId: EntityId, documentId: DocumentId, chunkId: ChunkId,
                          text: string, confidence: real)
    requires Sound(g) && AddMention(g, rules, entityId, documentId, chunkId, text, confidence).Ok?
    ensures Sound(AddMention(g, rules, entityId, documentId, chunkId, text, confidence).value.graph)
  {
    var stored := AddMention(g, rules, entityId, documentId, chunkId, text, confidence).value;
    if IndexOf(MentionKeys(g.mentions), (entityId, chunkId)).None? {
      assert MentionKeys(stored.graph.mentions) == MentionKeys(g.mentions) + [(entityId, chunkId)];
      DistinctAppend(MentionKeys(g.mentions), (entityId, chunkId));
      assert forall i | 0 <= i < |g.mentions| :: SoundMention(g, g.mentions[i]);
      assert forall i | 0 <= i < |g.relationships| :: SoundRelationship(g, g.relationships[i]);
    }
  }

  lemma AddRelationshipGrows(g: Graph, source: EntityId, target: EntityId, kind: RelationshipType,
                             description: Option<string>, confidence: real, chunkId: ChunkId)
    requires AddRelationship(g, source, target, kind, description, confidence, chunkId).Ok?
    ensures var stored := AddRelationship(g, source, target, kind, description, confidence, chunkId).value;
      && Grows(g, stored.graph) && stored.graph.entities == g.entities && stored.graph.mentions == g.mentions
      && stored.row in stored.graph.relationships
      && stored.row.source == source && stored.row.target == target
      && stored.row.kind == kind && stored.row.chunkId == chunkId
  {
    var stored := AddRelationship(g, source, target, kind, description, confidence, chunkId).value;
    var key := (source, target, kind, chunkId);
    match IndexOf(RelationshipKeys(g.relationships), key) {
      case None => assert stored.graph.relationships[|g.relationships|] == stored.row;
      case Some(i) => assert RelationshipKeys(g.relationships)[i] == key;
    }
  }

  /** `add_relationship` keeps the tables sound. */
  lemma AddRelationshipIsSound(g: Graph, source: EntityId, target: EntityId, kind: RelationshipType,
                               description: Option<string>, confidence: real, chunkId: ChunkId)
    requires Sound(g) && AddRelationship(g, source, target, kind, description, confidence, chunkId).Ok?
    ensures Sound(AddRelationship(g, source, target, kind, description, confidence, chunkId).value.graph)
  {
    var stored := AddRelationship(g, source, target, kind, description, confidence, chunkId).value;
    var key := (source, target, kind, chunkId);
    if IndexOf(RelationshipKeys(g.relationships), key).None? {
      assert RelationshipKeys(stored.graph.relationships) == RelationshipKeys(g.relationships) + [key];
      DistinctAppend(RelationshipKeys(g.relationships), key);
      assert forall i | 0 <= i < |g.mentions| :: SoundMention(g, g.mentions[i]);
      assert forall i | 0 <= i < |g.relationships| :: SoundRelationship(g, g.relationships[i]);
      assert RelationshipIds(stored.graph.relationships) == RelationshipIds(g.relationships) + [g.nextId];
      assert g.nextId !in RelationshipIds(g.relationships);
      DistinctAppend(RelationshipIds(g.relationships), g.nextId);
    }
  }

  // ---- The three operations, row by row ----

  ghost predicate NoEntity(g: Graph, entityType: EntityType, normalized: string) {
    forall i | 0 <= i < |g.entities| :: g.entities[i].entityType != entityType || g.entities[i].normalizedName != normalized
  }

  ghost predicate IsFilled(older: Entity, newer: Entity, description: Option<string>) {
    && newer == older.(description := newer.description)
    && newer.description == if older.description == None && description != None && description != Some("") then description
                            else older.description
  }

  /** An upsert adds a row for an unknown name, else only fills in the missing description of the known row. */
  lemma UpsertExactly(g: Graph, rules: NameRules, entityType: EntityType, name: string, description: Option<string>)
    ensures var canonical := rules.canonicalize(name);
      var normalized, result := rules.Normalize(canonical), UpsertEntity(g, rules, entityType, name, description);
      if normalized == "" then result == Err(EmptyName)
      else if NoEntity(g, entityType, normalized) then
        var row := Entity(g.nextId, entityType, canonical, normalized, description);
        result == Ok(Stored(g.(entities := g.entities + [row], nextId := g.nextId + 1), row))
      else exists i | 0 <= i < |g.entities| ::
        && result.Ok? && g.entities[i].entityType == entityType && g.entities[i].normalizedName == normalized
        && IsFilled(g.entities[i], result.value.row, description)
        && result.value.graph == g.(entities := g.entities[i := result.value.row])
  {
    var normalized := rules.Normalize(rules.canonicalize(name));
    NotBefore(EntityKeys(g.entities), (entityType, normalized));
    match IndexOf(EntityKeys(g.entities), (entityType, normalized)) {
      case None =>
        forall i | 0 <= i < |g.entities|
          ensures g.entities[i].entityType != entityType || g.entities[i].normalizedName != normalized
        {
          assert EntityKeys(g.entities)[i] != (entityType, normalized);
        }
      case Some(i) => assert EntityKeys(g.entities)[i] == (entityType, normalized);
    }
  }

  /** A mention needs a confidence in range, a known entity and a known chunk of the document; one is kept per entity and chunk. */
  lemma AddMentionExactly(g: Graph, rules: NameRules, entityId: EntityId, documentId: DocumentId, chunkId: ChunkId,
                          text: string, confidence: real)
    ensures var result := AddMention(g, rules, entityId, documentId, chunkId, text, confidence);
      if !(0.0 <= confidence <= 1.0) then result == Err(ConfidenceOutOfRange)
      else if forall i | 0 <= i < |g.entities| :: g.entities[i].id != entityId then result == Err(UnknownEntity)
      else if chunkId !in g.chunks then result == Err(UnknownChunk)
      else if g.chunks[chunkId].documentId != documentId then result == Err(WrongDocument)
      else if forall i | 0 <= i < |g.mentions| :: g.mentions[i].entityId != entityId || g.mentions[i].chunkId != chunkId then
        var row := Mention(g.nextId, entityId, documentId, chunkId, rules.canonicalize(text), confidence);
        result == Ok(Stored(g.(mentions := g.mentions + [row], nextId := g.nextId + 1), row))
      else
        && result.Ok? && result.value.graph == g && result.value.row in g.mentions
        && result.value.row.entityId == entityId && result.value.row.chunkId == chunkId
  {
    KnownEntity(g, entityId);
    var keys, key := MentionKeys(g.mentions), (entityId, chunkId);
    NotBefore(keys, key);
    assert forall i | 0 <= i < |g.mentions| :: keys[i] == key <==> g.mentions[i].entityId == entityId && g.mentions[i].chunkId == chunkId;
  }

  lemma KnownEntity(g: Graph, id: EntityId)
    ensures id in EntityIds(g.entities) <==> exists i | 0 <= i < |g.entities| :: g.entities[i].id == id
  {
    var ids := EntityIds(g.entities);
    if i :| 0 <= i < |g.entities| && g.entities[i].id == id {
      assert ids[i] == id;
    }
  }

  /** A relationship runs from `source` to `target`; one is kept per kind and chunk between the two. */
  lemma AddRelationshipExactly(g: Graph, source: EntityId, target: EntityId, kind: RelationshipType,
                               description: Option<string>, confidence: real, chunkId: ChunkId)
    ensures var result := AddRelationship(g, source, target, kind, description, confidence, chunkId);
      if !(0.0 <= confidence <= 1.0) then result == Err(ConfidenceOutOfRange)
      else if source == target then result == Err(SelfRelationship)
      else if forall i | 0 <= i < |g.entities| :: g.entities[i].id != source then result == Err(UnknownSource)
      else if forall i | 0 <= i < |g.entities| :: g.entities[i].id != target then result == Err(UnknownTarget)
      else if chunkId !in g.chunks then result == Err(UnknownChunk)
      else if forall i | 0 <= i < |g.relationships| :: !JoinsIds(source, target, kind, chunkId, g.relationships[i]) then
        var row := Relationship(g.nextId, source, target, kind, description, confidence, chunkId);
        result == Ok(Stored(g.(relationships := g.relationships + [row], nextId := g.nextId + 1), row))
      else
        && result.Ok? && result.value.graph == g && result.value.row in g.relationships
        && JoinsIds(source, target, kind, chunkId, result.value.row)
  {
    KnownEntity(g, source);
    KnownEntity(g, target);
    var keys, key := RelationshipKeys(g.relationships), (source, target, kind, chunkId);
    NotBefore(keys, key);
    assert forall i | 0 <= i < |g.relationships| :: keys[i] == key <==> JoinsIds(source, target, kind, chunkId, g.relationships[i]);
  }

  predicate JoinsIds(source: EntityId, target: EntityId, kind: RelationshipType, chunkId: ChunkId, row: Relationship) {
    row.source == source && row.target == target && row.kind == kind && row.chunkId == chunkId
  }

  // ---- The session ----

  class KnowledgeGraphStore {
    const rules: NameRules
    var entities: seq<Entity>
    var mentions: seq<Mention>
    var relationships: seq<Relationship>
    var chunks: map<ChunkId, Chunk>
    var documents: map<DocumentId, Document>
    var nextId: nat
    // What a rollback returns to.
    var committed: Graph

    function View(): Graph
      reads this
    {
      Graph(entities, mentions, relationships, chunks, documents, nextId)
    }

    ghost predicate Valid()
      reads this
    {
      Sound(View()) && Sound(committed)
    }

    constructor (rules: NameRules, chunks: map<ChunkId, Chunk>, documents: map<DocumentId, Document>)
      requires SoundDocuments(chunks, documents)
      ensures Valid() && View() == committed == Graph([], [], [], chunks, documents, 0)
      ensures this.rules == rules
    {
      this.rules := rules;
      entities, mentions, relationships, nextId := [], [], [], 0;
      this.chunks, this.documents := chunks, documents;
      committed := Graph([], [], [], chunks, documents, 0);
    }

    method Upsert(entityType: EntityType, canonicalName: string, description: Option<string>)
      returns (result: Result<Entity, GraphError>)
      requires Valid()
      modifies this
      ensures Valid() && committed == old(committed)
      ensures UpsertEntity(old(View()), rules, entityType, canonicalName, description) ==
              if result.Ok? then Ok(Stored(View(), result.value)) else Err(result.error)
      ensures result.Err? ==> View() == old(View())
    {
      ghost var g := View();
      var canonical := rules.canonicalize(canonicalName);
      var normalized := rules.Normalize(canonical);
      if normalized == "" {
        return Err(EmptyName);
      }
      var model := IndexOf(EntityKeys(entities), (entityType, normalized));
      var entity: Entity;
      if model.None? {
        entity := Entity(nextId, entityType, canonical, normalized, description);
        entities := entities + [entity];
        nextId := nextId + 1;
      } else {
        entity := entities[model.value];
        if entity.description.None? && description.Some? && description.value != "" {
          entity := entity.(description := description);
        }
        entities := entities[model.value := entity];
      }
      UpsertIsSound(g, rules, entityType, canonicalName, description);
      result := Ok(entity);
    }

    method Mentions(entityId: EntityId, documentId: DocumentId, chunkId: ChunkId, text: string, confidence: real)
      returns (result: Result<Mention, GraphError>)
      requires Valid()
      modifies this
      ensures Valid() && committed == old(committed)
      ensures AddMention(old(View()), rules, entityId, documentId, chunkId, text, confidence) ==
              if result.Ok? then Ok(Stored(View(), result.value)) else Err(result.error)
      ensures result.Err? ==> View() == old(View())
    {
      ghost var g := View();
      if !InUnitRange(confidence) {
        return Err(ConfidenceOutOfRange);
      }
      if entityId !in EntityIds(entities) {
        return Err(UnknownEntity);
      }
      if chunkId !in chunks {
        return Err(UnknownChunk);
      }
      if chunks[chunkId].documentId != documentId {
        return Err(WrongDocument);
      }
      var model := IndexOf(MentionKeys(mentions), (entityId, chunkId));
      if model.Some? {
        return Ok(mentions[model.value]);
      }
      var mention := Mention(nextId, entityId, documentId, chunkId, rules.canonicalize(text), confidence);
      mentions := mentions + [mention];
      nextId := nextId + 1;
      AddMentionIsSound(g, rules, entityId, documentId, chunkId, text, confidence);
      result := Ok(mention);
    }

    method Relate(source: EntityId, target: EntityId, kind: RelationshipType, description: Option<string>,
                  confidence: real, chunkId: ChunkId)
      returns (result: Result<Relationship, GraphError>)
      requires Valid()
      modifies this
      ensures Valid() && committed == old(committed)
      ensures AddRelationship(old(View()), source, target, kind, description, confidence, chunkId) ==
              if result.Ok? then Ok(Stored(View(), result.value)) else Err(result.error)
      ensures result.Err? ==> View() == old(View())
    {
      ghost var g := View();
      if !InUnitRange(confidence) {
        return Err(ConfidenceOutOfRange);
      }
      if source == target {
        return Err(SelfRelationship);
      }
      if source !in EntityIds(entities) {
        return Err(UnknownSource);
      }
      if target !in EntityIds(entities) {
        return Err(UnknownTarget);
      }
      if chunkId !in chunks {
        return Err(UnknownChunk);
      }
      var model := IndexOf(RelationshipKeys(relationships), (source, target, kind, chunkId));
      if model.Some? {
        return Ok(relationships[model.value]);
      }
      var relationship := Relationship(nextId, source, target, kind, description, confidence, chunkId);
      relationships := relationships + [relationship];
      nextId := nextId + 1;
      AddRelationshipIsSound(g, source, target, kind, description, confidence, chunkId);
      result := Ok(relationship);
    }

    method Commit()
      requires Valid()
      modifies `committed
      ensures Valid() && committed == View()
    {
      committed := View();
    }

    method Rollback()
      requires Valid()
      modifies this
      ensures Valid() && View() == committed == old(committed)
    {
      entities, mentions, relationships := committed.entities, committed.mentions, committed.relationships;
      chunks, documents, nextId := committed.chunks, committed.documents, committed.nextId;
    }
  }
}
