/**
  The entity and relationship extractors: model output is checked, filtered by confidence and
  deduplicated, keeping the best candidate of each identity in first-seen order.
*/
module Extraction {
  import opened Collections
  import opened GraphStore
  import opened Wrappers

  datatype ExtractedEntity = ExtractedEntity(
    localKey: string, canonicalName: string, entityType: EntityType, description: Option<string>,
    confidence: real, chunkId: ChunkId)

  datatype ExtractedRelationship = ExtractedRelationship(
    sourceKey: string, targetKey: string, kind: RelationshipType, description: Option<string>,
    confidence: real, chunkId: ChunkId)

  type Identity = (string, string, RelationshipType)

  // What the output schemas guarantee of model output.
  ghost predicate ValidEntities(raw: seq<ExtractedEntity>) {
    && (forall i, j | 0 <= i < j < |raw| :: raw[i].localKey != raw[j].localKey)
    && forall i | 0 <= i < |raw| :: InUnitRange(raw[i].confidence)
  }

  ghost predicate ValidRelationships(raw: seq<ExtractedRelationship>) {
    forall i | 0 <= i < |raw| :: InUnitRange(raw[i].confidence) && raw[i].sourceKey != raw[i].targetKey
  }

  datatype ExtractionError = ProviderFailed | InvalidResponse

  // ---- Keeping the best candidate of each identity ----

  // `byIdentity` and `order` of the loops.
  datatype Best<K, V> = Best(byIdentity: map<K, V>, order: seq<K>)

  function Offer<K, V>(best: Best<K, V>, k: K, v: V, better: (V, V) -> bool): Best<K, V> {
    if k !in best.byIdentity then Best(best.byIdentity[k := v], best.order + [k])
    else if better(v, best.byIdentity[k]) then best.(byIdentity := best.byIdentity[k := v])
    else best
  }

  ghost predicate Consistent<K(!new), V>(best: Best<K, V>) {
    && Distinct(best.order)
    && forall k :: k in best.order <==> k in best.byIdentity
  }

  lemma OfferIsConsistent<K(!new), V>(best: Best<K, V>, k: K, v: V, better: (V, V) -> bool)
    requires Consistent(best)
    ensures Consistent(Offer(best, k, v, better))
  {
    if k !in best.byIdentity {
      DistinctAppend(best.order, k);
    }
  }

  // The kept values, in order.
  function Kept<K, V>(best: Best<K, V>, order: seq<K>): seq<V>
    requires forall k | k in order :: k in best.byIdentity
  {
    seq(|order|, i requires 0 <= i < |order| => best.byIdentity[order[i]])
  }

  // ---- Entities ----

  function IdentityOf(rules: NameRules, entity: ExtractedEntity): EntityKey {
    (entity.entityType, rules.Normalize(rules.canonicalize(entity.canonicalName)))
  }

  function Canonical(rules: NameRules, entity: ExtractedEntity): ExtractedEntity {
    entity.(canonicalName := rules.canonicalize(entity.canonicalName))
  }

  predicate MoreConfident(a: ExtractedEntity, b: ExtractedEntity) {
    a.confidence > b.confidence
  }

  // The candidates after the loop has read `raw`.
  function BestEntities(raw: seq<ExtractedEntity>, rules: NameRules, chunkId: ChunkId, minConfidence: real)
    : Result<Best<EntityKey, ExtractedEntity>, ExtractionError>
  {
    if raw == [] then Ok(Best(map[], []))
    else
      var last := raw[|raw| - 1];
      match BestEntities(raw[..|raw| - 1], rules, chunkId, minConfidence)
      case Err(e) => Err(e)
      case Ok(best) =>
        if last.chunkId != chunkId || IdentityOf(rules, last).1 == "" then Err(InvalidResponse)
        else if last.confidence < minConfidence then Ok(best)
        else Ok(Offer(best, IdentityOf(rules, last), Canonical(rules, last), MoreConfident))
  }

  function ExtractEntities(raw: seq<ExtractedEntity>, rules: NameRules, chunkId: ChunkId, minConfidence: real,
                           maxEntities: nat): Result<seq<ExtractedEntity>, ExtractionError> {
    match BestEntities(raw, rules, chunkId, minConfidence)
    case Err(e) => Err(e)
    case Ok(best) =>
      BestEntitiesConsistent(raw, rules, chunkId, minConfidence);
      Ok(Kept(best, TakeFirst(best.order, maxEntities)))
  }

  lemma {:induction false} BestEntitiesConsistent(
      raw: seq<ExtractedEntity>, rules: NameRules, chunkId: ChunkId, minConfidence: real)
    requires BestEntities(raw, rules, chunkId, minConfidence).Ok?
    ensures Consistent(BestEntities(raw, rules, chunkId, minConfidence).value)
  {
    if raw != [] {
      var last := raw[|raw| - 1];
      BestEntitiesConsistent(raw[..|raw| - 1], rules, chunkId, minConfidence);
      OfferIsConsistent(BestEntities(raw[..|raw| - 1], rules, chunkId, minConfidence).value,
                        IdentityOf(rules, last), Canonical(rules, last), MoreConfident);
    }
  }

  // An error on the way is the error of the whole loop.
  lemma {:induction false} EntityErrorStays(
      raw: seq<ExtractedEntity>, rules: NameRules, chunkId: ChunkId, minConfidence: real, i: nat)
    requires i <= |raw| && BestEntities(raw[..i], rules, chunkId, minConfidence).Err?
    ensures BestEntities(raw, rules, chunkId, minConfidence) == BestEntities(raw[..i], rules, chunkId, minConfidence)
  {
    if i < |raw| {
      var front := raw[..|raw| - 1];
      assert front[..i] == raw[..i];
      EntityErrorStays(front, rules, chunkId, minConfidence, i);
    } else {
      assert raw[..i] == raw;
    }
  }

  /** The entity loop. */
  method FilterEntities(raw: seq<ExtractedEntity>, rules: NameRules, chunkId: ChunkId, minConfidence: real,
                        maxEntities: nat)
    returns (result: Result<seq<ExtractedEntity>, ExtractionError>)
    ensures result == ExtractEntities(raw, rules, chunkId, minConfidence, maxEntities)
  {
    var byIdentity: map<EntityKey, ExtractedEntity> := map[];
    var order: seq<EntityKey> := [];
    for i := 0 to |raw|
      invariant BestEntities(raw[..i], rules, chunkId, minConfidence) == Ok(Best(byIdentity, order))
    {
      assert raw[..i + 1][..i] == raw[..i] && raw[..i + 1][i] == raw[i];
      var entity := raw[i];
      if entity.chunkId != chunkId {
        EntityErrorStays(raw, rules, chunkId, minConfidence, i + 1);
        return Err(InvalidResponse);
      }
      var canonical := rules.canonicalize(entity.canonicalName);
      var normalized := rules.Normalize(canonical);
      if normalized == "" {
        EntityErrorStays(raw, rules, chunkId, minConfidence, i + 1);
        return Err(InvalidResponse);
      }
      if entity.confidence < minConfidence {
        continue;
      }
      var identity := (entity.entityType, normalized);
      var normalizedEntity := entity.(canonicalName := canonical);
      if identity !in byIdentity {
        order := order + [identity];
        byIdentity := byIdentity[identity := normalizedEntity];
      } else if normalizedEntity.confidence > byIdentity[identity].confidence {
        byIdentity := byIdentity[identity := normalizedEntity];
      }
    }
    assert raw[..|raw|] == raw;
    BestEntitiesConsistent(raw, rules, chunkId, minConfidence);
    result := Ok(Kept(Best(byIdentity, order), TakeFirst(order, maxEntities)));
  }

  // The candidates an identity competes with.
  ghost predicate Competes(rules: NameRules, minConfidence: real, identity: EntityKey, candidate: ExtractedEntity) {
    IdentityOf(rules, candidate) == identity && candidate.confidence >= minConfidence
  }

  // Where the kept entity of an identity comes from: the first accepted candidate of the highest confidence.
  ghost predicate IsBestOf(raw: seq<ExtractedEntity>, rules: NameRules, minConfidence: real,
                           identity: EntityKey, entity: ExtractedEntity, source: nat) {
    && source < |raw| && entity == Canonical(rules, raw[source])
    && Competes(rules, minConfidence, identity, raw[source])
    && (forall j | 0 <= j < |raw| && Competes(rules, minConfidence, identity, raw[j]) ::
          raw[j].confidence <= entity.confidence)
    && (forall j | 0 <= j < source && Competes(rules, minConfidence, identity, raw[j]) ::
          raw[j].confidence < entity.confidence)
  }

  lemma BestStays(front: seq<ExtractedEntity>, last: ExtractedEntity, rules: NameRules, minConfidence: real,
                  identity: EntityKey, entity: ExtractedEntity, source: nat)
    requires IsBestOf(front, rules, minConfidence, identity, entity, source)
    requires Competes(rules, minConfidence, identity, last) ==> last.confidence <= entity.confidence
    ensures IsBestOf(front + [last], rules, minConfidence, identity, entity, source)
  {
    hide Competes, Canonical;
  }

  lemma LastIsBest(front: seq<ExtractedEntity>, last: ExtractedEntity, rules: NameRules, minConfidence: real,
                   identity: EntityKey)
    requires Competes(rules, minConfidence, identity, last)
    requires forall j | 0 <= j < |front| && Competes(rules, minConfidence, identity, front[j]) ::
      front[j].confidence < last.confidence
    ensures IsBestOf(front + [last], rules, minConfidence, identity, Canonical(rules, last), |front|)
  {
    LocalKeyKept(rules, last);
    hide Competes, Canonical;
    assert forall j | 0 <= j < |front| :: (front + [last])[j] == front[j];
  }

  /** Every candidate was acceptable and no accepted identity is lost. */
  lemma {:induction false} AcceptedAreKept(
      raw: seq<ExtractedEntity>, rules: NameRules, chunkId: ChunkId, minConfidence: real)
    requires BestEntities(raw, rules, chunkId, minConfidence).Ok?
    ensures forall j | 0 <= j < |raw| :: raw[j].chunkId == chunkId && IdentityOf(rules, raw[j]).1 != ""
    ensures forall j, k | 0 <= j < |raw| && Competes(rules, minConfidence, k, raw[j]) ::
      k in BestEntities(raw, rules, chunkId, minConfidence).value.byIdentity
  {
    if raw != [] {
      var n := |raw| - 1;
      AcceptedAreKept(raw[..n], rules, chunkId, minConfidence);
      hide IdentityOf, Canonical;
      assert forall j | 0 <= j < n :: raw[..n][j] == raw[j];
    }
  }

  /** Every identity keeps its first candidate of the highest confidence. */
  lemma {:induction false} BestEntitiesAreBest(
      raw: seq<ExtractedEntity>, rules: NameRules, chunkId: ChunkId, minConfidence: real, k: EntityKey)
    requires BestEntities(raw, rules, chunkId, minConfidence).Ok?
    requires k in BestEntities(raw, rules, chunkId, minConfidence).value.byIdentity
    ensures exists s: nat ::
      IsBestOf(raw, rules, minConfidence, k, BestEntities(raw, rules, chunkId, minConfidence).value.byIdentity[k], s)
  {
    var n := |raw| - 1;
    var front, last := raw[..n], raw[n];
    var before := BestEntities(front, rules, chunkId, minConfidence).value;
    var best := BestEntities(raw, rules, chunkId, minConfidence).value;
    assert raw == front + [last];
    LocalKeyKept(rules, last);
    AcceptedAreKept(front, rules, chunkId, minConfidence);
    hide IdentityOf, Canonical, IsBestOf;
    if k in before.byIdentity {
      BestEntitiesAreBest(front, rules, chunkId, minConfidence, k);
      var s: nat :| IsBestOf(front, rules, minConfidence, k, before.byIdentity[k], s);
      if best.byIdentity[k] == before.byIdentity[k] {
        BestStays(front, last, rules, minConfidence, k, before.byIdentity[k], s);
        assert IsBestOf(raw, rules, minConfidence, k, best.byIdentity[k], s);
      } else {
        BestIsHighest(front, rules, minConfidence, k, before.byIdentity[k], s);
        LastIsBest(front, last, rules, minConfidence, k);
        assert IsBestOf(raw, rules, minConfidence, k, best.byIdentity[k], n);
      }
    } else {
      LastIsBest(front, last, rules, minConfidence, k);
      assert IsBestOf(raw, rules, minConfidence, k, best.byIdentity[k], n);
    }
  }

  // Some candidate of `k` comes before every candidate of `l`.
  ghost predicate SeenBefore(raw: seq<ExtractedEntity>, rules: NameRules, minConfidence: real, k: EntityKey, l: EntityKey) {
    exists j | 0 <= j < |raw| ::
      && Competes(rules, minConfidence, k, raw[j])
      && forall i | 0 <= i <= j :: !Competes(rules, minConfidence, l, raw[i])
  }

  /** The identities are listed in the order in which they were first accepted. */
  lemma {:induction false} OrderIsFirstSeen(
      raw: seq<ExtractedEntity>, rules: NameRules, chunkId: ChunkId, minConfidence: real)
    requires BestEntities(raw, rules, chunkId, minConfidence).Ok?
    ensures var order := BestEntities(raw, rules, chunkId, minConfidence).value.order;
      forall a, b | 0 <= a < b < |order| :: SeenBefore(raw, rules, minConfidence, order[a], order[b])
  {
    hide IsBestOf, SeenBefore, Canonical;
    if raw != [] {
      var n := |raw| - 1;
      var front, last := raw[..n], raw[n];
      var before := BestEntities(front, rules, chunkId, minConfidence).value;
      var order := BestEntities(raw, rules, chunkId, minConfidence).value.order;
      OrderIsFirstSeen(front, rules, chunkId, minConfidence);
      BestEntitiesConsistent(front, rules, chunkId, minConfidence);
      AcceptedAreKept(front, rules, chunkId, minConfidence);
      assert raw == front + [last];
      forall a, b | 0 <= a < b < |order| ensures SeenBefore(raw, rules, minConfidence, order[a], order[b]) {
        if b < |before.order| {
          assert SeenBefore(front, rules, minConfidence, order[a], order[b]);
          SeenBeforeStays(front, last, rules, minConfidence, order[a], order[b]);
        } else {
          assert order[a] == before.order[a];
          BestEntitiesAreBest(front, rules, chunkId, minConfidence, order[a]);
          NewIdentityIsLast(front, last, rules, minConfidence, order[a], order[b], before.byIdentity[order[a]]);
        }
      }
    }
  }

  lemma SeenBeforeStays(front: seq<ExtractedEntity>, last: ExtractedEntity, rules: NameRules, minConfidence: real,
                        k: EntityKey, l: EntityKey)
    requires SeenBefore(front, rules, minConfidence, k, l)
    ensures SeenBefore(front + [last], rules, minConfidence, k, l)
  {
    hide Competes;
    var j :| 0 <= j < |front| && Competes(rules, minConfidence, k, front[j])
             && forall i | 0 <= i <= j :: !Competes(rules, minConfidence, l, front[i]);
    assert (front + [last])[j] == front[j];
    assert forall i | 0 <= i <= j :: (front + [last])[i] == front[i];
  }

  lemma NewIdentityIsLast(front: seq<ExtractedEntity>, last: ExtractedEntity, rules: NameRules, minConfidence: real,
                          k: EntityKey, l: EntityKey, entity: ExtractedEntity)
    requires exists s: nat :: IsBestOf(front, rules, minConfidence, k, entity, s)
    requires forall i | 0 <= i < |front| :: !Competes(rules, minConfidence, l, front[i])
    ensures SeenBefore(front + [last], rules, minConfidence, k, l)
  {
    hide Competes, Canonical;
    var s: nat :| IsBestOf(front, rules, minConfidence, k, entity, s);
    assert (front + [last])[s] == front[s];
    assert forall i | 0 <= i <= s :: (front + [last])[i] == front[i];
  }

  lemma BestIsHighest(raw: seq<ExtractedEntity>, rules: NameRules, minConfidence: real,
                      identity: EntityKey, entity: ExtractedEntity, source: nat)
    requires IsBestOf(raw, rules, minConfidence, identity, entity, source)
    ensures forall j | 0 <= j < |raw| && Competes(rules, minConfidence, identity, raw[j]) ::
      raw[j].confidence <= entity.confidence
  {
  }

  // What the enrichment relies on.
  ghost predicate GoodEntity(rules: NameRules, chunkId: ChunkId, entity: ExtractedEntity) {
    entity.chunkId == chunkId && InUnitRange(entity.confidence) && IdentityOf(rules, entity).1 != ""
  }

  ghost predicate GoodEntities(rules: NameRules, chunkId: ChunkId, entities: seq<ExtractedEntity>) {
    && (forall i | 0 <= i < |entities| :: GoodEntity(rules, chunkId, entities[i]))
    && (forall i, j | 0 <= i < j < |entities| ::
          entities[i].localKey != entities[j].localKey && IdentityOf(rules, entities[i]) != IdentityOf(rules, entities[j]))
  }

  lemma CanonicalIdentity(rules: NameRules, entity: ExtractedEntity)
    requires rules.Lawful()
    ensures IdentityOf(rules, Canonical(rules, entity)) == IdentityOf(rules, entity)
  {
    assert rules.canonicalize(rules.canonicalize(entity.canonicalName)) == rules.canonicalize(entity.canonicalName);
  }

  /** Extracted entities have distinct local keys and distinct identities. */
  lemma ExtractedEntitiesAreGood(raw: seq<ExtractedEntity>, rules: NameRules, chunkId: ChunkId, minConfidence: real,
                                 maxEntities: nat)
    requires ValidEntities(raw) && rules.Lawful()
    requires ExtractEntities(raw, rules, chunkId, minConfidence, maxEntities).Ok?
    ensures GoodEntities(rules, chunkId, ExtractEntities(raw, rules, chunkId, minConfidence, maxEntities).value)
  {
    hide IdentityOf, Canonical, BestEntities, IsBestOf, ValidEntities, GoodEntity;
    var best := BestEntities(raw, rules, chunkId, minConfidence).value;
    var entities := ExtractEntities(raw, rules, chunkId, minConfidence, maxEntities).value;
    BestEntitiesConsistent(raw, rules, chunkId, minConfidence);
    AcceptedAreKept(raw, rules, chunkId, minConfidence);
    forall i | 0 <= i < |entities|
      ensures entities[i] == best.byIdentity[best.order[i]]
      ensures exists s: nat :: IsBestOf(raw, rules, minConfidence, best.order[i], entities[i], s)
      ensures GoodEntity(rules, chunkId, entities[i]) && IdentityOf(rules, entities[i]) == best.order[i]
    {
      BestEntitiesAreBest(raw, rules, chunkId, minConfidence, best.order[i]);
      KeptEntityIsGood(raw, rules, chunkId, minConfidence, best.order[i], entities[i]);
    }
    forall i, j | 0 <= i < j < |entities|
      ensures entities[i].localKey != entities[j].localKey && IdentityOf(rules, entities[i]) != IdentityOf(rules, entities[j])
    {
      assert best.order[i] != best.order[j];
      DifferentSources(raw, rules, minConfidence, best.order[i], best.order[j], entities[i], entities[j]);
    }
  }

  lemma DifferentSources(raw: seq<ExtractedEntity>, rules: NameRules, minConfidence: real,
                         k: EntityKey, l: EntityKey, a: ExtractedEntity, b: ExtractedEntity)
    requires ValidEntities(raw) && k != l
    requires exists s: nat :: IsBestOf(raw, rules, minConfidence, k, a, s)
    requires exists s: nat :: IsBestOf(raw, rules, minConfidence, l, b, s)
    ensures a.localKey != b.localKey
  {
    hide IdentityOf, Canonical;
    var s: nat :| IsBestOf(raw, rules, minConfidence, k, a, s);
    var t: nat :| IsBestOf(raw, rules, minConfidence, l, b, t);
    assert s != t;
    LocalKeyKept(rules, raw[s]);
    LocalKeyKept(rules, raw[t]);
  }

  lemma LocalKeyKept(rules: NameRules, entity: ExtractedEntity)
    ensures Canonical(rules, entity).localKey == entity.localKey
    ensures Canonical(rules, entity).confidence == entity.confidence
    ensures Canonical(rules, entity).chunkId == entity.chunkId
  {
  }

  lemma KeptEntityIsGood(raw: seq<ExtractedEntity>, rules: NameRules, chunkId: ChunkId, minConfidence: real,
                         identity: EntityKey, entity: ExtractedEntity)
    requires ValidEntities(raw) && rules.Lawful()
    requires forall j | 0 <= j < |raw| :: raw[j].chunkId == chunkId && IdentityOf(rules, raw[j]).1 != ""
    requires exists s: nat :: IsBestOf(raw, rules, minConfidence, identity, entity, s)
    ensures GoodEntity(rules, chunkId, entity) && IdentityOf(rules, entity) == identity
  {
    hide IdentityOf, Canonical;
    var s: nat :| IsBestOf(raw, rules, minConfidence, identity, entity, s);
    CanonicalIdentity(rules, raw[s]);
    LocalKeyKept(rules, raw[s]);
  }

  // ---- Relationships ----

  function IdentityOfEdge(edge: ExtractedRelationship): Identity {
    (edge.sourceKey, edge.targetKey, edge.kind)
  }

  predicate StrongerEdge(a: ExtractedRelationship, b: ExtractedRelationship) {
    a.confidence > b.confidence
  }

  function LocalKeys(entities: seq<ExtractedEntity>): set<string> {
    set i | 0 <= i < |entities| :: entities[i].localKey
  }

  function BestRelationships(raw: seq<ExtractedRelationship>, allowed: set<string>, chunkId: ChunkId, minConfidence: real)
    : Result<Best<Identity, ExtractedRelationship>, ExtractionError>
  {
    if raw == [] then Ok(Best(map[], []))
    else
      var last := raw[|raw| - 1];
      match BestRelationships(raw[..|raw| - 1], allowed, chunkId, minConfidence)
      case Err(e) => Err(e)
      case Ok(best) =>
        if last.chunkId != chunkId || last.sourceKey !in allowed || last.targetKey !in allowed then Err(InvalidResponse)
        else if last.confidence < minConfidence then Ok(best)
        else Ok(Offer(best, IdentityOfEdge(last), last, StrongerEdge))
  }

  // Without entities the model is not even asked.
  function ExtractRelationships(raw: seq<ExtractedRelationship>, entities: seq<ExtractedEntity>, chunkId: ChunkId,
                                minConfidence: real): Result<seq<ExtractedRelationship>, ExtractionError> {
    if entities == [] then Ok([])
    else match BestRelationships(raw, LocalKeys(entities), chunkId, minConfidence)
      case Err(e) => Err(e)
      case Ok(best) =>
        BestRelationshipsSound(raw, LocalKeys(entities), chunkId, minConfidence);
        Ok(Kept(best, best.order))
  }

  // What the enrichment relies on.
  ghost predicate GoodRelationship(allowed: set<string>, chunkId: ChunkId, minConfidence: real, edge: ExtractedRelationship) {
    edge.chunkId == chunkId && edge.sourceKey in allowed && edge.targetKey in allowed && edge.confidence >= minConfidence
  }

  lemma {:induction false} BestRelationshipsSound(
      raw: seq<ExtractedRelationship>, allowed: set<string>, chunkId: ChunkId, minConfidence: real)
    requires BestRelationships(raw, allowed, chunkId, minConfidence).Ok?
    ensures var best := BestRelationships(raw, allowed, chunkId, minConfidence).value;
      && Consistent(best)
      && forall k | k in best.byIdentity ::
           && IdentityOfEdge(best.byIdentity[k]) == k && best.byIdentity[k] in raw
           && GoodRelationship(allowed, chunkId, minConfidence, best.byIdentity[k])
  {
    if raw != [] {
      var n := |raw| - 1;
      BestRelationshipsSound(raw[..n], allowed, chunkId, minConfidence);
      assert raw == raw[..n] + [raw[n]];
      OfferIsConsistent(BestRelationships(raw[..n], allowed, chunkId, minConfidence).value,
                        IdentityOfEdge(raw[n]), raw[n], StrongerEdge);
    }
  }

  lemma {:induction false} RelationshipErrorStays(
      raw: seq<ExtractedRelationship>, allowed: set<string>, chunkId: ChunkId, minConfidence: real, i: nat)
    requires i <= |raw| && BestRelationships(raw[..i], allowed, chunkId, minConfidence).Err?
    ensures BestRelationships(raw, allowed, chunkId, minConfidence) == BestRelationships(raw[..i], allowed, chunkId, minConfidence)
  {
    if i < |raw| {
      var front := raw[..|raw| - 1];
      assert front[..i] == raw[..i];
      RelationshipErrorStays(front, allowed, chunkId, minConfidence, i);
    } else {
      assert raw[..i] == raw;
    }
  }

  /** The relationship loop. */
  method FilterRelationships(raw: seq<ExtractedRelationship>, entities: seq<ExtractedEntity>, chunkId: ChunkId,
                             minConfidence: real)
    returns (result: Result<seq<ExtractedRelationship>, ExtractionError>)
    ensures result == ExtractRelationships(raw, entities, chunkId, minConfidence)
  {
    if entities == [] {
      return Ok([]);
    }
    var allowedKeys := LocalKeys(entities);
    var unique: map<Identity, ExtractedRelationship> := map[];
    var order: seq<Identity> := [];
    for i := 0 to |raw|
      invariant BestRelationships(raw[..i], allowedKeys, chunkId, minConfidence) == Ok(Best(unique, order))
    {
      assert raw[..i + 1][..i] == raw[..i] && raw[..i + 1][i] == raw[i];
      var relationship := raw[i];
      if relationship.chunkId != chunkId {
        RelationshipErrorStays(raw, allowedKeys, chunkId, minConfidence, i + 1);
        return Err(InvalidResponse);
      }
      if relationship.sourceKey !in allowedKeys || relationship.targetKey !in allowedKeys {
        RelationshipErrorStays(raw, allowedKeys, chunkId, minConfidence, i + 1);
        return Err(InvalidResponse);
      }
      if relationship.confidence < minConfidence {
        continue;
      }
      var identity := (relationship.sourceKey, relationship.targetKey, relationship.kind);
      if identity !in unique {
        order := order + [identity];
        unique := unique[identity := relationship];
      } else if relationship.confidence > unique[identity].confidence {
        unique := unique[identity := relationship];
      }
    }
    assert raw[..|raw|] == raw;
    BestRelationshipsSound(raw, allowedKeys, chunkId, minConfidence);
    result := Ok(Kept(Best(unique, order), order));
  }

  // The first relationship of the highest confidence among those of its identity.
  ghost predicate Wins(raw: seq<ExtractedRelationship>, k: Identity, source: nat) {
    && source < |raw| && IdentityOfEdge(raw[source]) == k
    && (forall j | 0 <= j < |raw| && IdentityOfEdge(raw[j]) == k :: raw[j].confidence <= raw[source].confidence)
    && (forall j | 0 <= j < source && IdentityOfEdge(raw[j]) == k :: raw[j].confidence < raw[source].confidence)
  }

  ghost predicate Accepted(raw: seq<ExtractedRelationship>, minConfidence: real, k: Identity) {
    exists j | 0 <= j < |raw| :: IdentityOfEdge(raw[j]) == k && raw[j].confidence >= minConfidence
  }

  /** An identity is kept exactly when some relationship of it is confident enough, and then by its best one. */
  lemma {:induction false} BestRelationshipsAreBest(
      raw: seq<ExtractedRelationship>, allowed: set<string>, chunkId: ChunkId, minConfidence: real, k: Identity)
    requires BestRelationships(raw, allowed, chunkId, minConfidence).Ok?
    ensures var best := BestRelationships(raw, allowed, chunkId, minConfidence).value;
      && (k in best.byIdentity <==> Accepted(raw, minConfidence, k))
      && (k in best.byIdentity ==>
            best.byIdentity[k].confidence >= minConfidence
            && exists s: nat | s < |raw| :: raw[s] == best.byIdentity[k] && Wins(raw, k, s))
  {
    if raw != [] {
      var n := |raw| - 1;
      var front, last := raw[..n], raw[n];
      BestRelationshipsAreBest(front, allowed, chunkId, minConfidence, k);
      var before := BestRelationships(front, allowed, chunkId, minConfidence).value;
      var best := BestRelationships(raw, allowed, chunkId, minConfidence).value;
      AcceptedWith(front, last, minConfidence, k);
      assert raw == front + [last];
      hide Wins, Accepted;
      if k in before.byIdentity {
        var s: nat :| s < n && front[s] == before.byIdentity[k] && Wins(front, k, s);
        WinnerStaysOrFalls(front, last, k, s);
        assert raw[s] == front[s];
      } else if IdentityOfEdge(last) == k && last.confidence >= minConfidence {
        LastWins(front, last, minConfidence, k);
      }
    }
  }

  lemma AcceptedWith(front: seq<ExtractedRelationship>, last: ExtractedRelationship, minConfidence: real, k: Identity)
    ensures Accepted(front + [last], minConfidence, k)
            <==> Accepted(front, minConfidence, k) || (IdentityOfEdge(last) == k && last.confidence >= minConfidence)
  {
    var raw := front + [last];
    if j :| 0 <= j < |front| && IdentityOfEdge(front[j]) == k && front[j].confidence >= minConfidence {
      assert raw[j] == front[j];
    }
    assert raw[|front|] == last;
  }

  lemma WinnerStaysOrFalls(front: seq<ExtractedRelationship>, last: ExtractedRelationship, k: Identity, s: nat)
    requires Wins(front, k, s)
    ensures if IdentityOfEdge(last) == k && last.confidence > front[s].confidence then Wins(front + [last], k, |front|)
            else Wins(front + [last], k, s)
  {
  }

  lemma LastWins(front: seq<ExtractedRelationship>, last: ExtractedRelationship, minConfidence: real, k: Identity)
    requires !Accepted(front, minConfidence, k) && IdentityOfEdge(last) == k && last.confidence >= minConfidence
    ensures Wins(front + [last], k, |front|)
  {
  }

  /** Extracted relationships only name entities of the chunk, never twice the same one. */
  lemma ExtractedRelationshipsAreGood(raw: seq<ExtractedRelationship>, entities: seq<ExtractedEntity>, chunkId: ChunkId,
                                      minConfidence: real)
    requires ValidRelationships(raw) && ExtractRelationships(raw, entities, chunkId, minConfidence).Ok?
    ensures var edges := ExtractRelationships(raw, entities, chunkId, minConfidence).value;
      && (forall i | 0 <= i < |edges| ::
            && GoodRelationship(LocalKeys(entities), chunkId, minConfidence, edges[i])
            && InUnitRange(edges[i].confidence) && edges[i].sourceKey != edges[i].targetKey)
      && (forall i, j | 0 <= i < j < |edges| :: IdentityOfEdge(edges[i]) != IdentityOfEdge(edges[j]))
  {
    if entities != [] {
      BestRelationshipsSound(raw, LocalKeys(entities), chunkId, minConfidence);
    }
  }

  // ---- The two results, stated on the model's output ----

  predicate SameEntity(rules: NameRules, a: ExtractedEntity, b: ExtractedEntity) {
    && a.entityType == b.entityType
    && rules.Normalize(rules.canonicalize(a.canonicalName)) == rules.Normalize(rules.canonicalize(b.canonicalName))
  }

  // The entity is that candidate under its canonical name, the first of the most confident ones of its kind.
  ghost predicate ChosenFrom(raw: seq<ExtractedEntity>, rules: NameRules, minConfidence: real, entity: ExtractedEntity) {
    exists s :: ChosenAt(raw, rules, minConfidence, entity, s)
  }

  ghost predicate ChosenAt(raw: seq<ExtractedEntity>, rules: NameRules, minConfidence: real, entity: ExtractedEntity, s: nat) {
    && s < |raw| && entity == raw[s].(canonicalName := rules.canonicalize(raw[s].canonicalName))
    && entity.confidence >= minConfidence
    && forall j | 0 <= j < |raw| && SameEntity(rules, raw[j], raw[s]) ::
         raw[j].confidence <= entity.confidence && (j < s ==> raw[j].confidence < entity.confidence)
  }

  /** The output is refused when it names another chunk or an empty name, and for nothing else. */
  lemma {:induction false} EntitiesRefusedExactlyWhen(
      raw: seq<ExtractedEntity>, rules: NameRules, chunkId: ChunkId, minConfidence: real, maxEntities: nat)
    ensures ExtractEntities(raw, rules, chunkId, minConfidence, maxEntities).Ok? <==>
      forall j | 0 <= j < |raw| :: raw[j].chunkId == chunkId && rules.Normalize(rules.canonicalize(raw[j].canonicalName)) != ""
    ensures ExtractEntities(raw, rules, chunkId, minConfidence, maxEntities).Err? ==>
      ExtractEntities(raw, rules, chunkId, minConfidence, maxEntities) == Err(InvalidResponse)
  {
    if raw != [] {
      EntitiesRefusedExactlyWhen(raw[..|raw| - 1], rules, chunkId, minConfidence, maxEntities);
      assert forall j | 0 <= j < |raw| - 1 :: raw[..|raw| - 1][j] == raw[j];
    }
  }

  lemma ChosenIsBest(raw: seq<ExtractedEntity>, rules: NameRules, minConfidence: real, k: EntityKey, entity: ExtractedEntity, s: nat)
    requires IsBestOf(raw, rules, minConfidence, k, entity, s)
    ensures ChosenFrom(raw, rules, minConfidence, entity)
  {
    forall j | 0 <= j < |raw| && SameEntity(rules, raw[j], raw[s])
      ensures raw[j].confidence <= entity.confidence && (j < s ==> raw[j].confidence < entity.confidence)
    {
      if raw[j].confidence >= minConfidence {
        assert Competes(rules, minConfidence, k, raw[j]);
      }
    }
    assert ChosenAt(raw, rules, minConfidence, entity, s);
  }

  /**
    Each entity returned is the best candidate of its kind; they come in the order in which their kinds were first
    offered, at most `maxEntities` of them; and a kind is left out only when that many were offered before it.
  */
  lemma EntitiesAreTheFirstKinds(raw: seq<ExtractedEntity>, rules: NameRules, chunkId: ChunkId, minConfidence: real,
                                 maxEntities: nat)
    requires ValidEntities(raw) && rules.Lawful()
    requires ExtractEntities(raw, rules, chunkId, minConfidence, maxEntities).Ok?
    ensures var entities := ExtractEntities(raw, rules, chunkId, minConfidence, maxEntities).value;
      && |entities| <= maxEntities
      && (forall i | 0 <= i < |entities| :: ChosenFrom(raw, rules, minConfidence, entities[i]))
      && (forall a, b | 0 <= a < b < |entities| :: FirstOffered(raw, rules, minConfidence, entities[a], entities[b]))
      && forall j | 0 <= j < |raw| && raw[j].confidence >= minConfidence ::
           || (exists i | 0 <= i < |entities| :: SameEntity(rules, entities[i], raw[j]))
           || (|entities| == maxEntities
               && forall i | 0 <= i < |entities| :: FirstOffered(raw, rules, minConfidence, entities[i], raw[j]))
  {
    hide Canonical, BestEntities, IsBestOf, ValidEntities, GoodEntity, ChosenFrom, FirstOffered, SeenBefore, IdentityOf, SameEntity;
    var best := BestEntities(raw, rules, chunkId, minConfidence).value;
    var entities := ExtractEntities(raw, rules, chunkId, minConfidence, maxEntities).value;
    BestEntitiesConsistent(raw, rules, chunkId, minConfidence);
    AcceptedAreKept(raw, rules, chunkId, minConfidence);
    OrderIsFirstSeen(raw, rules, chunkId, minConfidence);
    forall i | 0 <= i < |entities|
      ensures IdentityOf(rules, entities[i]) == best.order[i]
      ensures ChosenFrom(raw, rules, minConfidence, entities[i])
    {
      BestEntitiesAreBest(raw, rules, chunkId, minConfidence, best.order[i]);
      KeptEntityIsGood(raw, rules, chunkId, minConfidence, best.order[i], entities[i]);
      var s: nat :| IsBestOf(raw, rules, minConfidence, best.order[i], entities[i], s);
      ChosenIsBest(raw, rules, minConfidence, best.order[i], entities[i], s);
    }
    forall a, b | 0 <= a < b < |entities| ensures FirstOffered(raw, rules, minConfidence, entities[a], entities[b]) {
      SeenIsOffered(raw, rules, minConfidence, entities[a], entities[b]);
    }
    forall j | 0 <= j < |raw| && raw[j].confidence >= minConfidence
      ensures || (exists i | 0 <= i < |entities| :: SameEntity(rules, entities[i], raw[j]))
              || (|entities| == maxEntities
                  && forall i | 0 <= i < |entities| :: FirstOffered(raw, rules, minConfidence, entities[i], raw[j]))
    {
      assert Competes(rules, minConfidence, IdentityOf(rules, raw[j]), raw[j]);
      assert IdentityOf(rules, raw[j]) in best.byIdentity && IdentityOf(rules, raw[j]) in best.order;
      var at :| 0 <= at < |best.order| && best.order[at] == IdentityOf(rules, raw[j]);
      if at < |entities| {
        SameByIdentity(rules, entities[at], raw[j]);
      } else {
        forall i | 0 <= i < |entities| ensures FirstOffered(raw, rules, minConfidence, entities[i], raw[j]) {
          SeenIsOffered(raw, rules, minConfidence, entities[i], raw[j]);
        }
      }
    }
  }

  lemma SameByIdentity(rules: NameRules, a: ExtractedEntity, b: ExtractedEntity)
    ensures SameEntity(rules, a, b) <==> IdentityOf(rules, a) == IdentityOf(rules, b)
  {
  }

  // Some confident candidate for `a` comes before every one for `b`.
  ghost predicate FirstOffered(raw: seq<ExtractedEntity>, rules: NameRules, minConfidence: real, a: ExtractedEntity, b: ExtractedEntity) {
    exists j | 0 <= j < |raw| ::
      && raw[j].confidence >= minConfidence && SameEntity(rules, raw[j], a)
      && forall i | 0 <= i <= j && SameEntity(rules, raw[i], b) :: raw[i].confidence < minConfidence
  }

  lemma SeenIsOffered(raw: seq<ExtractedEntity>, rules: NameRules, minConfidence: real, a: ExtractedEntity, b: ExtractedEntity)
    requires SeenBefore(raw, rules, minConfidence, IdentityOf(rules, a), IdentityOf(rules, b))
    ensures FirstOffered(raw, rules, minConfidence, a, b)
  {
    var k, l := IdentityOf(rules, a), IdentityOf(rules, b);
    var j :| 0 <= j < |raw| && Competes(rules, minConfidence, k, raw[j])
             && forall i | 0 <= i <= j :: !Competes(rules, minConfidence, l, raw[i]);
    assert SameEntity(rules, raw[j], a);
  }

  predicate SameEdge(a: ExtractedRelationship, b: ExtractedRelationship) {
    a.sourceKey == b.sourceKey && a.targetKey == b.targetKey && a.kind == b.kind
  }

  ghost predicate EdgeChosenFrom(raw: seq<ExtractedRelationship>, minConfidence: real, edge: ExtractedRelationship) {
    exists s :: EdgeChosenAt(raw, minConfidence, edge, s)
  }

  ghost predicate EdgeChosenAt(raw: seq<ExtractedRelationship>, minConfidence: real, edge: ExtractedRelationship, s: nat) {
    && s < |raw| && edge == raw[s] && edge.confidence >= minConfidence
    && forall j | 0 <= j < |raw| && SameEdge(raw[j], edge) ::
         raw[j].confidence <= edge.confidence && (j < s ==> raw[j].confidence < edge.confidence)
  }

  ghost predicate EdgeFirstOffered(raw: seq<ExtractedRelationship>, minConfidence: real, a: ExtractedRelationship,
                                   b: ExtractedRelationship) {
    exists j | 0 <= j < |raw| ::
      && raw[j].confidence >= minConfidence && SameEdge(raw[j], a)
      && forall i | 0 <= i <= j && SameEdge(raw[i], b) :: raw[i].confidence < minConfidence
  }

  /** The output is refused when it names another chunk or an unknown key, and for nothing else. */
  lemma {:induction false} EdgesRefusedExactlyWhen(
      raw: seq<ExtractedRelationship>, entities: seq<ExtractedEntity>, chunkId: ChunkId, minConfidence: real)
    requires entities != []
    ensures ExtractRelationships(raw, entities, chunkId, minConfidence).Ok? <==>
      forall j | 0 <= j < |raw| ::
        raw[j].chunkId == chunkId && HasKey(entities, raw[j].sourceKey) && HasKey(entities, raw[j].targetKey)
    ensures ExtractRelationships(raw, entities, chunkId, minConfidence).Err? ==>
      ExtractRelationships(raw, entities, chunkId, minConfidence) == Err(InvalidResponse)
  {
    if raw != [] {
      EdgesRefusedExactlyWhen(raw[..|raw| - 1], entities, chunkId, minConfidence);
      assert forall j | 0 <= j < |raw| - 1 :: raw[..|raw| - 1][j] == raw[j];
      HasKeyIsKnown(entities, raw[|raw| - 1].sourceKey);
      HasKeyIsKnown(entities, raw[|raw| - 1].targetKey);
    }
  }

  ghost predicate HasKey(entities: seq<ExtractedEntity>, key: string) {
    exists i | 0 <= i < |entities| :: entities[i].localKey == key
  }

  lemma HasKeyIsKnown(entities: seq<ExtractedEntity>, key: string)
    ensures HasKey(entities, key) <==> key in LocalKeys(entities)
  {
  }

  lemma {:induction false} EdgeOrderIsFirstOffered(
      raw: seq<ExtractedRelationship>, allowed: set<string>, chunkId: ChunkId, minConfidence: real, a: nat, b: nat)
    requires BestRelationships(raw, allowed, chunkId, minConfidence).Ok?
    requires a < b < |BestRelationships(raw, allowed, chunkId, minConfidence).value.order|
    ensures var best := BestRelationships(raw, allowed, chunkId, minConfidence).value;
      && best.order[a] in best.byIdentity && best.order[b] in best.byIdentity
      && EdgeFirstOffered(raw, minConfidence, best.byIdentity[best.order[a]], best.byIdentity[best.order[b]])
  {
    hide Wins;
    var n := |raw| - 1;
    var front, last := raw[..n], raw[n];
    var before := BestRelationships(front, allowed, chunkId, minConfidence).value;
    var best := BestRelationships(raw, allowed, chunkId, minConfidence).value;
    assert raw == front + [last];
    BestRelationshipsSound(front, allowed, chunkId, minConfidence);
    BestRelationshipsSound(raw, allowed, chunkId, minConfidence);
    var k, l := best.order[a], best.order[b];
    assert k in best.byIdentity && l in best.byIdentity;
    if b < |before.order| {
      EdgeOrderIsFirstOffered(front, allowed, chunkId, minConfidence, a, b);
      EdgeOfferedStill(front, last, minConfidence, before.byIdentity[k], before.byIdentity[l], best.byIdentity[k], best.byIdentity[l]);
    } else {
      BestRelationshipsAreBest(front, allowed, chunkId, minConfidence, k);
      BestRelationshipsAreBest(front, allowed, chunkId, minConfidence, l);
      NewEdgeIsLast(front, last, minConfidence, k, l, best.byIdentity[k], best.byIdentity[l]);
    }
  }

  lemma EdgeOfferedStill(front: seq<ExtractedRelationship>, last: ExtractedRelationship, minConfidence: real,
                         a: ExtractedRelationship, b: ExtractedRelationship, c: ExtractedRelationship, d: ExtractedRelationship)
    requires EdgeFirstOffered(front, minConfidence, a, b)
    requires IdentityOfEdge(a) == IdentityOfEdge(c) && IdentityOfEdge(b) == IdentityOfEdge(d)
    ensures EdgeFirstOffered(front + [last], minConfidence, c, d)
  {
    var j :| 0 <= j < |front| && front[j].confidence >= minConfidence && SameEdge(front[j], a)
             && forall i | 0 <= i <= j && SameEdge(front[i], b) :: front[i].confidence < minConfidence;
    assert forall i | 0 <= i <= j :: (front + [last])[i] == front[i];
    assert SameEdge((front + [last])[j], c);
  }

  lemma NewEdgeIsLast(front: seq<ExtractedRelationship>, last: ExtractedRelationship, minConfidence: real, k: Identity, l: Identity,
                      c: ExtractedRelationship, d: ExtractedRelationship)
    requires Accepted(front, minConfidence, k) && !Accepted(front, minConfidence, l)
    requires IdentityOfEdge(c) == k && IdentityOfEdge(d) == l
    ensures EdgeFirstOffered(front + [last], minConfidence, c, d)
  {
    var j :| 0 <= j < |front| && IdentityOfEdge(front[j]) == k && front[j].confidence >= minConfidence;
    assert forall i | 0 <= i <= j :: (front + [last])[i] == front[i];
    assert SameEdge((front + [last])[j], c);
    forall i | 0 <= i <= j && SameEdge((front + [last])[i], d) ensures (front + [last])[i].confidence < minConfidence {
      assert IdentityOfEdge(front[i]) == l;
    }
  }

  /** Of every confident edge the first of the most confident is returned, once, in the order first offered. */
  lemma EdgesAreTheBest(raw: seq<ExtractedRelationship>, entities: seq<ExtractedEntity>, chunkId: ChunkId, minConfidence: real)
    requires entities != [] && ExtractRelationships(raw, entities, chunkId, minConfidence).Ok?
    ensures var edges := ExtractRelationships(raw, entities, chunkId, minConfidence).value;
      && (forall i | 0 <= i < |edges| :: EdgeChosenFrom(raw, minConfidence, edges[i]))
      && (forall a, b | 0 <= a < b < |edges| :: EdgeFirstOffered(raw, minConfidence, edges[a], edges[b]))
      && forall j | 0 <= j < |raw| && raw[j].confidence >= minConfidence ::
           exists i | 0 <= i < |edges| :: SameEdge(edges[i], raw[j])
  {
    hide BestRelationships, Wins, EdgeFirstOffered, Accepted, EdgeChosenFrom;
    var allowed := LocalKeys(entities);
    var best := BestRelationships(raw, allowed, chunkId, minConfidence).value;
    var edges := ExtractRelationships(raw, entities, chunkId, minConfidence).value;
    BestRelationshipsSound(raw, allowed, chunkId, minConfidence);
    forall i | 0 <= i < |edges| ensures EdgeChosenFrom(raw, minConfidence, edges[i]) {
      BestRelationshipsAreBest(raw, allowed, chunkId, minConfidence, best.order[i]);
      var s: nat :| s < |raw| && raw[s] == edges[i] && Wins(raw, best.order[i], s);
      WinnerIsChosen(raw, minConfidence, best.order[i], s);
    }
    forall a, b | 0 <= a < b < |edges| ensures EdgeFirstOffered(raw, minConfidence, edges[a], edges[b]) {
      EdgeOrderIsFirstOffered(raw, allowed, chunkId, minConfidence, a, b);
    }
    forall j | 0 <= j < |raw| && raw[j].confidence >= minConfidence ensures exists i | 0 <= i < |edges| :: SameEdge(edges[i], raw[j]) {
      var k := IdentityOfEdge(raw[j]);
      BestRelationshipsAreBest(raw, allowed, chunkId, minConfidence, k);
      IsAccepted(raw, minConfidence, j);
      var i :| 0 <= i < |best.order| && best.order[i] == k;
      assert SameEdge(edges[i], raw[j]);
    }
  }

  lemma WinnerIsChosen(raw: seq<ExtractedRelationship>, minConfidence: real, k: Identity, s: nat)
    requires Wins(raw, k, s) && raw[s].confidence >= minConfidence
    ensures EdgeChosenFrom(raw, minConfidence, raw[s])
  {
    forall j | 0 <= j < |raw| && SameEdge(raw[j], raw[s])
      ensures raw[j].confidence <= raw[s].confidence && (j < s ==> raw[j].confidence < raw[s].confidence)
    {
      assert IdentityOfEdge(raw[j]) == k;
    }
    assert EdgeChosenAt(raw, minConfidence, raw[s], s);
  }

  lemma IsAccepted(raw: seq<ExtractedRelationship>, minConfidence: real, j: nat)
    requires j < |raw| && raw[j].confidence >= minConfidence
    ensures Accepted(raw, minConfidence, IdentityOfEdge(raw[j]))
  {
  }
}
