/**
  `get_neighborhood`: breadth-first search over incoming and outgoing edges with an entity budget,
  a row limit per layer and a depth limit.
*/
module Traversal {
  import opened Collections
  import opened GraphStore

  const ROWS_PER_ENTITY: nat := 8

  datatype Bounds = Bounds(maxDepth: nat, maxEntities: nat, minConfidence: real)

  // The loop variables of the search.
  datatype Search = Search(
    visited: set<EntityId>, frontier: set<EntityId>, found: map<RelationshipId, Relationship>, depthUsed: nat)

  predicate Touches(edge: Relationship, ids: set<EntityId>) {
    edge.source in ids || edge.target in ids
  }

  // The `where` clause of one layer, in row order.
  function Matching(rows: seq<Relationship>, frontier: set<EntityId>, minConfidence: real): seq<Relationship> {
    if rows == [] then []
    else
      var rest := Matching(rows[1..], frontier, minConfidence);
      if Touches(rows[0], frontier) && rows[0].confidence >= minConfidence then [rows[0]] + rest else rest
  }

  function LayerEdges(rows: seq<Relationship>, frontier: set<EntityId>, bounds: Bounds): seq<Relationship> {
    TakeFirst(Matching(rows, frontier, bounds.minConfidence), bounds.maxEntities * ROWS_PER_ENTITY)
  }

  // The endpoints of an edge that have not been visited yet.
  function NewIds(edge: Relationship, visited: set<EntityId>): seq<EntityId> {
    (if edge.source in visited then [] else [edge.source])
    + (if edge.target in visited then [] else [edge.target])
  }

  function ToSet(ids: seq<EntityId>): set<EntityId> {
    set id | id in ids
  }

  // One edge of a layer; `frontier` collects the ids of the next layer.
  function Absorb(search: Search, edge: Relationship, maxEntities: nat): Search {
    var newIds := NewIds(edge, search.visited);
    if newIds != [] && |search.visited| + |newIds| > maxEntities then search
    else Search(
      search.visited + ToSet(newIds), search.frontier + ToSet(newIds),
      if edge.id in search.found then search.found else search.found[edge.id := edge], search.depthUsed)
  }

  function AbsorbAll(search: Search, edges: seq<Relationship>, maxEntities: nat): Search
    decreases |edges|
  {
    if edges == [] then search else AbsorbAll(Absorb(search, edges[0], maxEntities), edges[1..], maxEntities)
  }

  // One round of the depth loop; it changes nothing once the loop would stop.
  function Advance(rows: seq<Relationship>, search: Search, bounds: Bounds): Search {
    var edges := LayerEdges(rows, search.frontier, bounds);
    if search.frontier == {} || edges == [] then search
    else AbsorbAll(search.(frontier := {}, depthUsed := search.depthUsed + 1), edges, bounds.maxEntities)
  }

  // `dict.fromkeys`: the first occurrence of each id.
  function Unique(ids: seq<EntityId>): seq<EntityId> {
    if ids == [] then []
    else
      var rest := Unique(ids[..|ids| - 1]);
      if ids[|ids| - 1] in rest then rest else rest + [ids[|ids| - 1]]
  }

  function OrderedSeeds(seeds: seq<EntityId>, maxEntities: nat): seq<EntityId> {
    TakeFirst(Unique(seeds), maxEntities)
  }

  function Start(seeds: seq<EntityId>, maxEntities: nat): Search {
    var ids := ToSet(OrderedSeeds(seeds, maxEntities));
    Search(ids, ids, map[], 0)
  }

  // The search after `k` rounds.
  function After(rows: seq<Relationship>, seeds: seq<EntityId>, bounds: Bounds, k: nat): Search {
    if k == 0 then Start(seeds, bounds.maxEntities)
    else Advance(rows, After(rows, seeds, bounds, k - 1), bounds)
  }

  // The search once it has stopped.
  function Neighborhood(rows: seq<Relationship>, seeds: seq<EntityId>, bounds: Bounds): Search {
    After(rows, seeds, bounds, bounds.maxDepth)
  }

  lemma {:induction false} StoppedForGood(rows: seq<Relationship>, seeds: seq<EntityId>, bounds: Bounds, k: nat, later: nat)
    requires k <= later
    requires Advance(rows, After(rows, seeds, bounds, k), bounds) == After(rows, seeds, bounds, k)
    ensures After(rows, seeds, bounds, later) == After(rows, seeds, bounds, k)
  {
    if k < later {
      StoppedForGood(rows, seeds, bounds, k, later - 1);
    }
  }

  /** The search loops. */
  method Explore(rows: seq<Relationship>, seeds: seq<EntityId>, bounds: Bounds) returns (result: Search)
    ensures result == Neighborhood(rows, seeds, bounds)
  {
    hide AbsorbAll, LayerEdges;
    var orderedSeeds := OrderedSeeds(seeds, bounds.maxEntities);
    var visited := ToSet(orderedSeeds);
    var frontier := ToSet(orderedSeeds);
    var found: map<RelationshipId, Relationship> := map[];
    var depthUsed: nat := 0;
    var depth: nat := 1;
    while depth <= bounds.maxDepth
      invariant 1 <= depth <= bounds.maxDepth + 1
      invariant Search(visited, frontier, found, depthUsed) == After(rows, seeds, bounds, depth - 1)
      invariant depthUsed == depth - 1
    {
      if frontier == {} {
        StoppedForGood(rows, seeds, bounds, depth - 1, bounds.maxDepth);
        return Search(visited, frontier, found, depthUsed);
      }
      var edges := LayerEdges(rows, frontier, bounds);
      if edges == [] {
        StoppedForGood(rows, seeds, bounds, depth - 1, bounds.maxDepth);
        return Search(visited, frontier, found, depthUsed);
      }
      ghost var before := Search(visited, {}, found, depth);
      visited, frontier, found := ScanLayer(visited, found, edges, bounds.maxEntities, depth);
      depthUsed := depth;
      depth := depth + 1;
    }
    result := Search(visited, frontier, found, depthUsed);
  }

  // The edge loop of one layer.
  method ScanLayer(seen: set<EntityId>, known: map<RelationshipId, Relationship>, edges: seq<Relationship>,
                   maxEntities: nat, ghost depth: nat)
    returns (visited: set<EntityId>, nextFrontier: set<EntityId>, found: map<RelationshipId, Relationship>)
    ensures Search(visited, nextFrontier, found, depth) == AbsorbAll(Search(seen, {}, known, depth), edges, maxEntities)
  {
    visited, nextFrontier, found := seen, {}, known;
    ghost var all := AbsorbAll(Search(seen, {}, known, depth), edges, maxEntities);
    assert edges[0..] == edges;
    for i := 0 to |edges|
      invariant AbsorbAll(Search(visited, nextFrontier, found, depth), edges[i..], maxEntities) == all
    {
      assert edges[i..][0] == edges[i] && edges[i..][1..] == edges[i + 1..];
      var newIds := NewIds(edges[i], visited);
      if newIds != [] && |visited| + |newIds| > maxEntities {
        continue;
      }
      if edges[i].id !in found {
        found := found[edges[i].id := edges[i]];
      }
      nextFrontier := nextFrontier + ToSet(newIds);
      visited := visited + ToSet(newIds);
    }
    assert edges[|edges|..] == [];
  }

  // ---- What the search keeps, with or without truncation ----

  // An edge between two visited entities, taken from the table and strong enough.
  ghost predicate GoodEdge(rows: seq<Relationship>, search: Search, bounds: Bounds, id: RelationshipId)
    requires id in search.found
  {
    var edge := search.found[id];
    && edge.id == id && edge in rows && edge.confidence >= bounds.minConfidence
    && edge.source in search.visited && edge.target in search.visited
  }

  ghost predicate WithinBounds(rows: seq<Relationship>, search: Search, bounds: Bounds) {
    && |search.visited| <= bounds.maxEntities
    && search.frontier <= search.visited
    && forall id | id in search.found :: GoodEdge(rows, search, bounds, id)
  }

  lemma {:induction false} MatchingRows(rows: seq<Relationship>, frontier: set<EntityId>, minConfidence: real)
    ensures forall edge :: edge in Matching(rows, frontier, minConfidence) <==>
      edge in rows && Touches(edge, frontier) && edge.confidence >= minConfidence
  {
    if rows != [] {
      MatchingRows(rows[1..], frontier, minConfidence);
      assert forall edge :: edge in rows <==> edge == rows[0] || edge in rows[1..];
    }
  }

  lemma LayerRows(rows: seq<Relationship>, frontier: set<EntityId>, bounds: Bounds)
    ensures forall edge | edge in LayerEdges(rows, frontier, bounds) ::
      edge in rows && Touches(edge, frontier) && edge.confidence >= bounds.minConfidence
  {
    MatchingRows(rows, frontier, bounds.minConfidence);
    var all := Matching(rows, frontier, bounds.minConfidence);
    assert forall edge | edge in LayerEdges(rows, frontier, bounds) :: edge in all;
  }

  lemma NewIdsAsSet(edge: Relationship, visited: set<EntityId>)
    ensures ToSet(NewIds(edge, visited)) == {edge.source, edge.target} - visited
  {
    var newIds := NewIds(edge, visited);
    forall id ensures id in ToSet(newIds) <==> id in {edge.source, edge.target} - visited {
      assert id in newIds <==> (id == edge.source || id == edge.target) && id !in visited;
    }
  }

  lemma {:induction false} ToSetCount(ids: seq<EntityId>)
    ensures |ToSet(ids)| <= |ids|
  {
    if ids == [] {
      assert ToSet(ids) == {};
    } else {
      var n := |ids| - 1;
      ToSetCount(ids[..n]);
      ToSetAppend(ids[..n], ids[n]);
      assert ids == ids[..n] + [ids[n]];
    }
  }

  lemma ToSetAppend(ids: seq<EntityId>, id: EntityId)
    ensures ToSet(ids + [id]) == ToSet(ids) + {id}
  {
  }

  lemma UnionCount(a: set<EntityId>, b: set<EntityId>)
    ensures |a + b| <= |a| + |b|
  {
  }

  lemma NewIdsCount(edge: Relationship, visited: set<EntityId>)
    ensures |visited + ToSet(NewIds(edge, visited))| <= |visited| + |NewIds(edge, visited)|
    ensures ToSet(NewIds(edge, visited)) == {edge.source, edge.target} - visited
  {
    NewIdsAsSet(edge, visited);
    hide NewIds, ToSet;
    ToSetCount(NewIds(edge, visited));
    UnionCount(visited, ToSet(NewIds(edge, visited)));
  }

  lemma AbsorbWithinBounds(rows: seq<Relationship>, search: Search, bounds: Bounds, edge: Relationship)
    requires WithinBounds(rows, search, bounds)
    requires edge in rows && edge.confidence >= bounds.minConfidence
    ensures WithinBounds(rows, Absorb(search, edge, bounds.maxEntities), bounds)
    ensures search.visited <= Absorb(search, edge, bounds.maxEntities).visited
  {
    NewIdsCount(edge, search.visited);
    hide NewIds, ToSet;
    var next := Absorb(search, edge, bounds.maxEntities);
    forall id | id in next.found ensures GoodEdge(rows, next, bounds, id) {
      if id in search.found { assert GoodEdge(rows, search, bounds, id); }
    }
  }

  lemma {:induction false} AbsorbAllWithinBounds(rows: seq<Relationship>, search: Search, edges: seq<Relationship>, bounds: Bounds)
    requires WithinBounds(rows, search, bounds)
    requires forall edge | edge in edges :: edge in rows && edge.confidence >= bounds.minConfidence
    ensures WithinBounds(rows, AbsorbAll(search, edges, bounds.maxEntities), bounds)
    ensures search.visited <= AbsorbAll(search, edges, bounds.maxEntities).visited
    decreases |edges|
  {
    hide WithinBounds, Absorb;
    if edges != [] {
      AbsorbWithinBounds(rows, search, bounds, edges[0]);
      AbsorbAllWithinBounds(rows, Absorb(search, edges[0], bounds.maxEntities), edges[1..], bounds);
    }
  }

  lemma AdvanceWithinBounds(rows: seq<Relationship>, search: Search, bounds: Bounds)
    requires WithinBounds(rows, search, bounds)
    ensures WithinBounds(rows, Advance(rows, search, bounds), bounds)
    ensures search.visited <= Advance(rows, search, bounds).visited
  {
    var edges := LayerEdges(rows, search.frontier, bounds);
    LayerRows(rows, search.frontier, bounds);
    hide LayerEdges, AbsorbAll;
    var begun := search.(frontier := {}, depthUsed := search.depthUsed + 1);
    assert WithinBounds(rows, begun, bounds) by {
      forall id | id in begun.found ensures GoodEdge(rows, begun, bounds, id) {
        assert GoodEdge(rows, search, bounds, id);
      }
    }
    AbsorbAllWithinBounds(rows, begun, edges, bounds);
  }

  lemma {:induction false} UniqueIds(ids: seq<EntityId>)
    ensures Distinct(Unique(ids)) && ToSet(Unique(ids)) == ToSet(ids)
  {
    if ids != [] {
      var n := |ids| - 1;
      var rest := Unique(ids[..n]);
      UniqueIds(ids[..n]);
      assert ids == ids[..n] + [ids[n]];
      ToSetAppend(ids[..n], ids[n]);
      if ids[n] in rest {
        assert ids[n] in ToSet(rest);
      } else {
        ToSetAppend(rest, ids[n]);
        DistinctAppend(rest, ids[n]);
      }
    }
  }

  lemma {:induction false} DistinctCount(ids: seq<EntityId>)
    requires Distinct(ids)
    ensures |ToSet(ids)| == |ids|
  {
    if ids == [] {
      assert ToSet(ids) == {};
    } else {
      var n := |ids| - 1;
      DistinctCount(ids[..n]);
      assert ids == ids[..n] + [ids[n]];
      ToSetAppend(ids[..n], ids[n]);
      assert ids[n] !in ids[..n];
    }
  }

  lemma SeedsWithinBounds(seeds: seq<EntityId>, maxEntities: nat)
    ensures var ids := ToSet(OrderedSeeds(seeds, maxEntities));
      && |ids| <= maxEntities && ids <= ToSet(seeds)
      && (|ToSet(seeds)| <= maxEntities ==> ids == ToSet(seeds))
      && (|ids| < maxEntities ==> ids == ToSet(seeds))
  {
    var unique := Unique(seeds);
    UniqueIds(seeds);
    DistinctCount(unique);
    var ordered := OrderedSeeds(seeds, maxEntities);
    assert Distinct(ordered);
    DistinctCount(ordered);
    assert forall id | id in ordered :: id in unique;
  }

  /** Budget, table membership, confidence and endpoints, after any number of rounds. */
  lemma {:induction false} SearchWithinBounds(rows: seq<Relationship>, seeds: seq<EntityId>, bounds: Bounds, k: nat)
    ensures WithinBounds(rows, After(rows, seeds, bounds, k), bounds)
  {
    if k == 0 {
      SeedsWithinBounds(seeds, bounds.maxEntities);
    } else {
      SearchWithinBounds(rows, seeds, bounds, k - 1);
      AdvanceWithinBounds(rows, After(rows, seeds, bounds, k - 1), bounds);
    }
  }

  // ---- Hops ----

  // The entities one undirected step away.
  ghost function Neighbors(edges: set<Relationship>, ids: set<EntityId>): set<EntityId> {
    (set edge | edge in edges && Touches(edge, ids) :: edge.source)
    + (set edge | edge in edges && Touches(edge, ids) :: edge.target)
  }

  // The entities at most `k` undirected steps away.
  ghost function Within(edges: set<Relationship>, ids: set<EntityId>, k: nat): set<EntityId> {
    if k == 0 then ids else Within(edges, ids, k - 1) + Neighbors(edges, Within(edges, ids, k - 1))
  }

  lemma NeighborsGrow(edges: set<Relationship>, more: set<Relationship>, ids: set<EntityId>, wider: set<EntityId>)
    requires edges <= more && ids <= wider
    ensures Neighbors(edges, ids) <= Neighbors(more, wider)
  {
    assert forall edge | edge in edges && Touches(edge, ids) :: edge in more && Touches(edge, wider);
  }

  lemma {:induction false} WithinGrows(edges: set<Relationship>, more: set<Relationship>, ids: set<EntityId>, k: nat)
    requires edges <= more
    ensures Within(edges, ids, k) <= Within(more, ids, k)
  {
    hide Neighbors;
    if k > 0 {
      WithinGrows(edges, more, ids, k - 1);
      NeighborsGrow(edges, more, Within(edges, ids, k - 1), Within(more, ids, k - 1));
    }
  }

  lemma {:induction false} WithinFurther(edges: set<Relationship>, ids: set<EntityId>, k: nat, m: nat)
    requires k <= m
    ensures Within(edges, ids, k) <= Within(edges, ids, m)
  {
    if k < m {
      WithinFurther(edges, ids, k, m - 1);
    }
  }

  // ---- Every entity is joined to a seed by the returned edges ----

  // Entities of earlier layers lie within `depth - 1` steps, those of this layer within `depth`.
  ghost predicate Joined(search: Search, ids: set<EntityId>) {
    search.visited <= Within(search.found.Values, ids, search.depthUsed)
  }

  // What an absorbed edge adds.
  lemma AbsorbedEdge(search: Search, edge: Relationship, maxEntities: nat)
    requires edge.id in search.found ==> search.found[edge.id] == edge
    ensures var next := Absorb(search, edge, maxEntities);
      && search.found.Values <= next.found.Values && next.depthUsed == search.depthUsed
      && search.visited <= next.visited && search.frontier <= next.frontier
      && ((next.found == search.found && next.visited == search.visited)
          || (edge in next.found.Values && next.visited == search.visited + {edge.source, edge.target}))
  {
    NewIdsAsSet(edge, search.visited);
    var next := Absorb(search, edge, maxEntities);
    hide NewIds, ToSet;
    assert forall id | id in search.found :: id in next.found && next.found[id] == search.found[id];
    assert next != search ==> edge.id in next.found && next.found[edge.id] == edge;
  }

  lemma NeighborsOfEdge(edges: set<Relationship>, ids: set<EntityId>, edge: Relationship)
    requires edge in edges && Touches(edge, ids)
    ensures {edge.source, edge.target} <= Neighbors(edges, ids)
  {
  }

  lemma AbsorbJoined(search: Search, edge: Relationship, maxEntities: nat, ids: set<EntityId>, base: set<EntityId>)
    requires search.depthUsed > 0 && Joined(search, ids)
    requires base <= Within(search.found.Values, ids, search.depthUsed - 1) && Touches(edge, base)
    requires edge.id in search.found ==> search.found[edge.id] == edge
    ensures Joined(Absorb(search, edge, maxEntities), ids)
    ensures base <= Within(Absorb(search, edge, maxEntities).found.Values, ids, search.depthUsed - 1)
  {
    hide Absorb, Neighbors;
    var next := Absorb(search, edge, maxEntities);
    var k := search.depthUsed;
    AbsorbedEdge(search, edge, maxEntities);
    WithinGrows(search.found.Values, next.found.Values, ids, k - 1);
    WithinGrows(search.found.Values, next.found.Values, ids, k);
    var near := Within(next.found.Values, ids, k - 1);
    assert Touches(edge, near);
    if edge in next.found.Values {
      NeighborsOfEdge(next.found.Values, near, edge);
    }
  }

  // The rows of the table are told apart by their ids, so `setdefault` never meets another edge.
  ghost predicate KnownRows(rows: seq<Relationship>, found: map<RelationshipId, Relationship>) {
    forall id | id in found :: found[id] in rows && found[id].id == id
  }

  ghost predicate DistinctRows(rows: seq<Relationship>) {
    forall a, b | a in rows && b in rows && a.id == b.id :: a == b
  }

  lemma DistinctIdsDistinctRows(rows: seq<Relationship>)
    requires Distinct(RelationshipIds(rows))
    ensures DistinctRows(rows)
  {
    forall a, b | a in rows && b in rows && a.id == b.id ensures a == b {
      var i, j :| 0 <= i < |rows| && 0 <= j < |rows| && rows[i] == a && rows[j] == b;
      assert RelationshipIds(rows)[i] == RelationshipIds(rows)[j];
    }
  }

  lemma {:induction false} AbsorbAllJoined(rows: seq<Relationship>, search: Search, edges: seq<Relationship>, maxEntities: nat,
                                            ids: set<EntityId>, base: set<EntityId>)
    requires DistinctRows(rows) && KnownRows(rows, search.found)
    requires forall edge | edge in edges :: edge in rows && Touches(edge, base)
    requires search.depthUsed > 0 && Joined(search, ids)
    requires base <= Within(search.found.Values, ids, search.depthUsed - 1)
    ensures Joined(AbsorbAll(search, edges, maxEntities), ids)
    decreases |edges|
  {
    hide Joined, Within, NewIds, ToSet;
    if edges != [] {
      AbsorbJoined(search, edges[0], maxEntities, ids, base);
      AbsorbAllJoined(rows, Absorb(search, edges[0], maxEntities), edges[1..], maxEntities, ids, base);
    }
  }

  /** Every visited entity is joined to a seed by at most `depth_used` of the returned edges. */
  lemma {:induction false} EveryEntityIsJoined(rows: seq<Relationship>, seeds: seq<EntityId>, bounds: Bounds, k: nat)
    requires DistinctRows(rows)
    ensures Joined(After(rows, seeds, bounds, k), ToSet(OrderedSeeds(seeds, bounds.maxEntities)))
    ensures KnownRows(rows, After(rows, seeds, bounds, k).found)
  {
    hide AbsorbAll, LayerEdges, OrderedSeeds, ToSet;
    var ids := ToSet(OrderedSeeds(seeds, bounds.maxEntities));
    if k > 0 {
      var search := After(rows, seeds, bounds, k - 1);
      EveryEntityIsJoined(rows, seeds, bounds, k - 1);
      SearchWithinBounds(rows, seeds, bounds, k - 1);
      SearchWithinBounds(rows, seeds, bounds, k);
      LayerRows(rows, search.frontier, bounds);
      var begun := search.(frontier := {}, depthUsed := search.depthUsed + 1);
      WithinFurther(begun.found.Values, ids, search.depthUsed, begun.depthUsed);
      AbsorbAllJoined(rows, begun, LayerEdges(rows, search.frontier, bounds), bounds.maxEntities, ids, search.frontier);
      var next := After(rows, seeds, bounds, k);
      forall id | id in next.found ensures next.found[id] in rows && next.found[id].id == id {
        assert GoodEdge(rows, next, bounds, id);
      }
    }
  }

  // ---- How deep the search went ----

  // The entities first reached in layer `k`.
  ghost function LayerIds(rows: seq<Relationship>, seeds: seq<EntityId>, bounds: Bounds, k: nat): set<EntityId> {
    After(rows, seeds, bounds, k).frontier
  }

  lemma {:induction false} AbsorbAllLayer(search: Search, edges: seq<Relationship>, maxEntities: nat, base: set<EntityId>)
    requires search.visited == base + search.frontier && base !! search.frontier
    ensures var next := AbsorbAll(search, edges, maxEntities);
      next.visited == base + next.frontier && base !! next.frontier && next.depthUsed == search.depthUsed
    decreases |edges|
  {
    if edges != [] {
      NewIdsAsSet(edges[0], search.visited);
      hide NewIds, ToSet;
      AbsorbAllLayer(Absorb(search, edges[0], maxEntities), edges[1..], maxEntities, base);
    }
  }

  lemma AdvanceLayer(rows: seq<Relationship>, search: Search, bounds: Bounds)
    ensures var next := Advance(rows, search, bounds);
      || next == search
      || (next.depthUsed == search.depthUsed + 1 && search.frontier != {}
          && next.visited == search.visited + next.frontier && search.visited !! next.frontier)
  {
    AbsorbAllLayer(search.(frontier := {}, depthUsed := search.depthUsed + 1),
                   LayerEdges(rows, search.frontier, bounds), bounds.maxEntities, search.visited);
  }

  /** `depth_used` counts the rounds made; every layer before it was not empty. */
  lemma {:induction false} DepthUsedCountsRounds(rows: seq<Relationship>, seeds: seq<EntityId>, bounds: Bounds, k: nat)
    ensures var search := After(rows, seeds, bounds, k);
      && search.depthUsed <= k && After(rows, seeds, bounds, search.depthUsed) == search
      && (search.depthUsed == k || Advance(rows, search, bounds) == search)
      && (forall j: nat | j < search.depthUsed :: LayerIds(rows, seeds, bounds, j) != {})
  {
    if k > 0 {
      hide Advance;
      DepthUsedCountsRounds(rows, seeds, bounds, k - 1);
      AdvanceLayer(rows, After(rows, seeds, bounds, k - 1), bounds);
    }
  }

  // The entities of the layers up to `k`.
  ghost function LayersUpTo(rows: seq<Relationship>, seeds: seq<EntityId>, bounds: Bounds, k: nat): set<EntityId> {
    LayerIds(rows, seeds, bounds, k) + if k == 0 then {} else LayersUpTo(rows, seeds, bounds, k - 1)
  }

  lemma {:induction false} LayersAreVisited(rows: seq<Relationship>, seeds: seq<EntityId>, bounds: Bounds, k: nat)
    requires After(rows, seeds, bounds, k).depthUsed == k
    ensures LayersUpTo(rows, seeds, bounds, k) == After(rows, seeds, bounds, k).visited
    ensures k > 0 ==> After(rows, seeds, bounds, k - 1).depthUsed == k - 1
    ensures k > 0 ==> LayerIds(rows, seeds, bounds, k) !! LayersUpTo(rows, seeds, bounds, k - 1)
  {
    if k > 0 {
      hide Advance;
      AdvanceLayer(rows, After(rows, seeds, bounds, k - 1), bounds);
      DepthUsedCountsRounds(rows, seeds, bounds, k - 1);
      LayersAreVisited(rows, seeds, bounds, k - 1);
    }
  }

  /**
    The visited entities are exactly those of the layers up to `depth_used`, each layer is disjoint
    from the ones before it, and only the last one can be empty: the deepest layer reached is
    `depth_used` or the one before it.
  */
  lemma DepthUsedIsDeepestOrOneMore(rows: seq<Relationship>, seeds: seq<EntityId>, bounds: Bounds)
    ensures var result := Neighborhood(rows, seeds, bounds);
      && result.depthUsed <= bounds.maxDepth
      && result.visited == LayersUpTo(rows, seeds, bounds, result.depthUsed)
      && (forall j: nat | j < result.depthUsed :: LayerIds(rows, seeds, bounds, j) != {})
      && (forall j: nat | 0 < j <= result.depthUsed ::
            LayerIds(rows, seeds, bounds, j) !! LayersUpTo(rows, seeds, bounds, j - 1))
  {
    DepthUsedCountsRounds(rows, seeds, bounds, bounds.maxDepth);
    var d := Neighborhood(rows, seeds, bounds).depthUsed;
    LayersAreVisited(rows, seeds, bounds, d);
    forall j: nat | 0 < j <= d ensures LayerIds(rows, seeds, bounds, j) !! LayersUpTo(rows, seeds, bounds, j - 1) {
      EarlierRounds(rows, seeds, bounds, j, d);
      LayersAreVisited(rows, seeds, bounds, j);
    }
  }

  lemma {:induction false} EarlierRounds(rows: seq<Relationship>, seeds: seq<EntityId>, bounds: Bounds, j: nat, k: nat)
    requires j <= k && After(rows, seeds, bounds, k).depthUsed == k
    ensures After(rows, seeds, bounds, j).depthUsed == j
  {
    if j < k {
      LayersAreVisited(rows, seeds, bounds, k);
      EarlierRounds(rows, seeds, bounds, j, k - 1);
    }
  }

  // ---- Completeness ----

  // The edges of sufficient confidence.
  ghost function Strong(rows: seq<Relationship>, minConfidence: real): set<Relationship> {
    set edge | edge in rows && edge.confidence >= minConfidence
  }

  ghost function EdgesAt(edges: set<Relationship>, ids: set<EntityId>): set<Relationship> {
    set edge | edge in edges && Touches(edge, ids)
  }

  ghost function Endpoints(edges: seq<Relationship>): set<EntityId> {
    (set edge | edge in edges :: edge.source) + (set edge | edge in edges :: edge.target)
  }

  lemma EndpointsCons(edges: seq<Relationship>)
    requires edges != []
    ensures Endpoints(edges) == {edges[0].source, edges[0].target} + Endpoints(edges[1..])
  {
    var rest := edges[1..];
    assert forall edge :: edge in edges <==> edge == edges[0] || edge in rest;
    forall id ensures id in Endpoints(edges) <==> id in {edges[0].source, edges[0].target} + Endpoints(rest) {
      if id in Endpoints(edges) {
        var edge :| edge in edges && (edge.source == id || edge.target == id);
        assert edge == edges[0] || edge in rest;
      }
      if id in Endpoints(rest) {
        var edge :| edge in rest && (edge.source == id || edge.target == id);
        assert edge in edges;
      }
    }
  }

  ghost predicate NoSelfEdges(rows: seq<Relationship>) {
    forall edge | edge in rows :: edge.source != edge.target
  }

  // All edges of a layer are absorbed.
  ghost predicate Whole(search: Search, edges: seq<Relationship>, next: Search) {
    && next.visited == search.visited + Endpoints(edges)
    && next.found.Values == search.found.Values + ToEdgeSet(edges)
  }

  ghost function ToEdgeSet(edges: seq<Relationship>): set<Relationship> {
    set edge | edge in edges
  }

  lemma NewIdsExactCount(edge: Relationship, visited: set<EntityId>)
    requires edge.source != edge.target
    ensures |visited| + |NewIds(edge, visited)| == |visited + {edge.source, edge.target}|
    ensures Touches(edge, visited) ==> |NewIds(edge, visited)| <= 1
    ensures NewIds(edge, visited) == [] <==> {edge.source, edge.target} <= visited
  {
    var both := {edge.source, edge.target};
    if edge.source in visited && edge.target in visited {
      assert visited + both == visited;
    } else if edge.source in visited {
      assert visited + both == visited + {edge.target};
    } else if edge.target in visited {
      assert visited + both == visited + {edge.source};
    } else {
      assert visited + both == visited + {edge.source} + {edge.target};
    }
  }

  lemma AbsorbWhole(rows: seq<Relationship>, search: Search, edge: Relationship, maxEntities: nat)
    requires DistinctRows(rows) && KnownRows(rows, search.found) && edge in rows && edge.source != edge.target
    requires |search.visited + {edge.source, edge.target}| <= maxEntities
             || {edge.source, edge.target} <= search.visited
    ensures var next := Absorb(search, edge, maxEntities);
      && next.visited == search.visited + {edge.source, edge.target}
      && next.found.Values == search.found.Values + {edge}
      && KnownRows(rows, next.found)
  {
    hide NewIds, ToSet;
    NewIdsExactCount(edge, search.visited);
    NewIdsAsSet(edge, search.visited);
    var next := Absorb(search, edge, maxEntities);
    assert next.found == if edge.id in search.found then search.found else search.found[edge.id := edge];
    if edge.id in search.found {
      assert search.found[edge.id] == edge;
    } else {
      assert next.found[edge.id] == edge;
      assert forall id | id in search.found :: next.found[id] == search.found[id];
    }
  }

  // With room for all endpoints, nothing is skipped.
  lemma {:induction false} RoomForAll(rows: seq<Relationship>, search: Search, edges: seq<Relationship>, maxEntities: nat)
    requires DistinctRows(rows) && NoSelfEdges(rows) && KnownRows(rows, search.found)
    requires forall edge | edge in edges :: edge in rows
    requires |search.visited + Endpoints(edges)| <= maxEntities
    ensures Whole(search, edges, AbsorbAll(search, edges, maxEntities))
    decreases |edges|
  {
    hide Absorb, NewIds, DistinctRows, KnownRows;
    if edges != [] {
      var next := Absorb(search, edges[0], maxEntities);
      EndpointsCons(edges);
      SubsetIsSmaller(search.visited + {edges[0].source, edges[0].target}, search.visited + Endpoints(edges));
      AbsorbWhole(rows, search, edges[0], maxEntities);
      assert next.visited + Endpoints(edges[1..]) == search.visited + Endpoints(edges);
      RoomForAll(rows, next, edges[1..], maxEntities);
      assert ToEdgeSet(edges) == {edges[0]} + ToEdgeSet(edges[1..]);
    }
  }

  lemma {:induction false} AbsorbAllKeeps(search: Search, edges: seq<Relationship>, maxEntities: nat)
    ensures search.visited <= AbsorbAll(search, edges, maxEntities).visited
    decreases |edges|
  {
    if edges != [] {
      AbsorbAllKeeps(Absorb(search, edges[0], maxEntities), edges[1..], maxEntities);
    }
  }

  lemma RoomForOne(visited: set<EntityId>, edge: Relationship, maxEntities: nat)
    requires Touches(edge, visited) && |visited| < maxEntities
    ensures |visited + {edge.source, edge.target}| <= maxEntities
  {
    if edge.source in visited {
      assert visited + {edge.source, edge.target} == visited + {edge.target};
    } else {
      assert visited + {edge.source, edge.target} == visited + {edge.source};
    }
  }

  // A layer that ends below the budget skipped nothing.
  lemma {:induction false} NotFullSkipsNothing(rows: seq<Relationship>, search: Search, edges: seq<Relationship>, maxEntities: nat)
    requires DistinctRows(rows) && NoSelfEdges(rows) && KnownRows(rows, search.found)
    requires forall edge | edge in edges :: edge in rows && Touches(edge, search.visited)
    requires |AbsorbAll(search, edges, maxEntities).visited| < maxEntities
    ensures AbsorbAll(search, edges, maxEntities).visited == search.visited + Endpoints(edges)
    decreases |edges|
  {
    hide Absorb, NewIds, DistinctRows, KnownRows, Endpoints;
    if edges == [] {
      EndpointsOfNone(edges);
    } else {
      AbsorbAllKeeps(search, edges, maxEntities);
      SubsetIsSmaller(search.visited, AbsorbAll(search, edges, maxEntities).visited);
      RoomForOne(search.visited, edges[0], maxEntities);
      AbsorbWhole(rows, search, edges[0], maxEntities);
      EndpointsCons(edges);
      assert forall edge | edge in edges[1..] :: edge in edges;
      NotFullSkipsNothing(rows, Absorb(search, edges[0], maxEntities), edges[1..], maxEntities);
    }
  }

  lemma EndpointsOfNone(edges: seq<Relationship>)
    ensures edges == [] ==> Endpoints(edges) == {}
  {
  }

  // Only edges of the frontier may still be missing.
  ghost predicate OldEdgesSeen(search: Search, strong: set<Relationship>) {
    forall edge | edge in strong && Touches(edge, search.visited - search.frontier) ::
      edge in search.found.Values && {edge.source, edge.target} <= search.visited
  }

  // The search has seen everything within `k` hops.
  ghost predicate SeenAll(rows: seq<Relationship>, search: Search, bounds: Bounds, ids: set<EntityId>, k: nat) {
    var strong := Strong(rows, bounds.minConfidence);
    && search.visited == Within(strong, ids, k) && search.frontier <= search.visited
    && search.found.Values == (if k == 0 then {} else EdgesAt(strong, Within(strong, ids, k - 1)))
    && OldEdgesSeen(search, strong)
  }

  // The row limit cut nothing off.
  ghost predicate LayerFits(rows: seq<Relationship>, search: Search, bounds: Bounds) {
    |Matching(rows, search.frontier, bounds.minConfidence)| <= bounds.maxEntities * ROWS_PER_ENTITY
  }

  // The entity budget has room for the whole layer.
  ghost predicate HasRoom(rows: seq<Relationship>, search: Search, bounds: Bounds) {
    |search.visited + Endpoints(LayerEdges(rows, search.frontier, bounds))| <= bounds.maxEntities
  }

  // A layer that fits returns exactly the strong edges at the frontier.
  lemma FittingLayer(rows: seq<Relationship>, search: Search, bounds: Bounds)
    requires LayerFits(rows, search, bounds)
    ensures ToEdgeSet(LayerEdges(rows, search.frontier, bounds))
            == EdgesAt(Strong(rows, bounds.minConfidence), search.frontier)
  {
    MatchingRows(rows, search.frontier, bounds.minConfidence);
  }

  lemma EndpointsOfSet(edges: seq<Relationship>, all: set<Relationship>, ids: set<EntityId>)
    requires ToEdgeSet(edges) == EdgesAt(all, ids)
    ensures Endpoints(edges) == Neighbors(all, ids)
  {
    assert forall edge :: edge in edges <==> edge in all && Touches(edge, ids) by {
      forall edge ensures edge in edges <==> edge in all && Touches(edge, ids) {
        assert edge in ToEdgeSet(edges) <==> edge in EdgesAt(all, ids);
      }
    }
    assert (set edge | edge in edges :: edge.source) == (set edge | edge in all && Touches(edge, ids) :: edge.source);
    assert (set edge | edge in edges :: edge.target) == (set edge | edge in all && Touches(edge, ids) :: edge.target);
  }

  // Old entities add nothing: the next hop comes from the frontier.
  lemma NextHop(rows: seq<Relationship>, search: Search, bounds: Bounds, ids: set<EntityId>, k: nat)
    requires SeenAll(rows, search, bounds, ids, k)
    ensures var strong := Strong(rows, bounds.minConfidence);
      && Within(strong, ids, k + 1) == search.visited + Neighbors(strong, search.frontier)
      && EdgesAt(strong, search.visited) == search.found.Values + EdgesAt(strong, search.frontier)
  {
    var strong := Strong(rows, bounds.minConfidence);
    var old_ := search.visited - search.frontier;
    assert forall edge | edge in strong :: Touches(edge, search.visited) <==> Touches(edge, search.frontier) || Touches(edge, old_);
    if k > 0 { WithinFurther(strong, ids, k - 1, k); }
    assert forall edge | edge in search.found.Values :: edge in strong && Touches(edge, search.visited);
    forall id ensures id in Within(strong, ids, k + 1) <==> id in search.visited + Neighbors(strong, search.frontier) {
      if id in Neighbors(strong, search.visited) && id !in search.visited {
        var edge :| edge in strong && Touches(edge, search.visited) && (edge.source == id || edge.target == id);
        assert !Touches(edge, old_);
        assert Touches(edge, search.frontier);
      }
      if id in Neighbors(strong, search.frontier) {
        var edge :| edge in strong && Touches(edge, search.frontier) && (edge.source == id || edge.target == id);
        assert Touches(edge, search.visited);
      }
    }
  }

  // After a whole layer, the edges at the entities visited before it have been seen.
  lemma WholeLayerSeen(strong: set<Relationship>, search: Search, edges: seq<Relationship>, next: Search)
    requires OldEdgesSeen(search, strong) && search.frontier <= search.visited
    requires ToEdgeSet(edges) == EdgesAt(strong, search.frontier)
    requires Whole(search, edges, next) && next.visited == search.visited + next.frontier && search.visited !! next.frontier
    ensures OldEdgesSeen(next, strong)
  {
    assert next.visited - next.frontier == search.visited;
    forall edge | edge in strong && Touches(edge, search.visited)
      ensures edge in next.found.Values && {edge.source, edge.target} <= next.visited
    {
      if Touches(edge, search.frontier) {
        assert edge in EdgesAt(strong, search.frontier);
        EndpointsHave(edges, edge);
      } else {
        assert Touches(edge, search.visited - search.frontier);
      }
    }
  }

  lemma NoEdgesAtFrontier(strong: set<Relationship>, search: Search, edges: seq<Relationship>)
    requires search.frontier == {} || edges == []
    requires ToEdgeSet(edges) == EdgesAt(strong, search.frontier)
    ensures ToEdgeSet(edges) == {} && Neighbors(strong, search.frontier) == {}
  {
    assert ToEdgeSet(edges) == {};
    forall edge | edge in strong ensures !Touches(edge, search.frontier) {
      assert edge !in EdgesAt(strong, search.frontier);
    }
  }

  // What one round does to a search that has seen everything so far.
  lemma AdvanceWhole(rows: seq<Relationship>, search: Search, bounds: Bounds)
    requires DistinctRows(rows) && NoSelfEdges(rows) && KnownRows(rows, search.found)
    requires HasRoom(rows, search, bounds) && LayerFits(rows, search, bounds)
    requires search.frontier <= search.visited && OldEdgesSeen(search, Strong(rows, bounds.minConfidence))
    ensures var strong, next := Strong(rows, bounds.minConfidence), Advance(rows, search, bounds);
      && OldEdgesSeen(next, strong) && next.frontier <= next.visited
      && next.visited == search.visited + Neighbors(strong, search.frontier)
      && next.found.Values == search.found.Values + EdgesAt(strong, search.frontier)
  {
    hide LayerEdges, Neighbors, Strong, AbsorbAll, DistinctRows, KnownRows, OldEdgesSeen, EdgesAt, Endpoints, ToEdgeSet;
    var strong := Strong(rows, bounds.minConfidence);
    var edges := LayerEdges(rows, search.frontier, bounds);
    FittingLayer(rows, search, bounds);
    EndpointsOfSet(edges, strong, search.frontier);
    if search.frontier == {} || edges == [] {
      NoEdgesAtFrontier(strong, search, edges);
    } else {
      LayerRows(rows, search.frontier, bounds);
      LayerWhole(rows, search, bounds, edges);
      WholeLayerSeen(strong, search, edges, Advance(rows, search, bounds));
    }
  }

  lemma LayerWhole(rows: seq<Relationship>, search: Search, bounds: Bounds, edges: seq<Relationship>)
    requires DistinctRows(rows) && NoSelfEdges(rows) && KnownRows(rows, search.found)
    requires edges == LayerEdges(rows, search.frontier, bounds) && edges != [] && search.frontier != {}
    requires forall edge | edge in edges :: edge in rows
    requires |search.visited + Endpoints(edges)| <= bounds.maxEntities
    ensures var next := Advance(rows, search, bounds);
      && Whole(search, edges, next) && next.visited == search.visited + next.frontier && search.visited !! next.frontier
  {
    hide LayerEdges, AbsorbAll, DistinctRows, KnownRows, Endpoints, ToEdgeSet, NoSelfEdges;
    var begun := search.(frontier := {}, depthUsed := search.depthUsed + 1);
    RoomForAll(rows, begun, edges, bounds.maxEntities);
    AbsorbAllLayer(begun, edges, bounds.maxEntities, search.visited);
  }

  lemma AdvanceSeesAll(rows: seq<Relationship>, search: Search, bounds: Bounds, ids: set<EntityId>, k: nat)
    requires DistinctRows(rows) && NoSelfEdges(rows) && KnownRows(rows, search.found)
    requires SeenAll(rows, search, bounds, ids, k) && LayerFits(rows, search, bounds) && HasRoom(rows, search, bounds)
    ensures SeenAll(rows, Advance(rows, search, bounds), bounds, ids, k + 1)
  {
    hide Advance, LayerFits, HasRoom, Within, Neighbors, Strong, DistinctRows, KnownRows, OldEdgesSeen, EdgesAt;
    NextHop(rows, search, bounds, ids, k);
    AdvanceWhole(rows, search, bounds);
  }

  lemma EndpointsHave(edges: seq<Relationship>, edge: Relationship)
    requires edge in edges
    ensures {edge.source, edge.target} <= Endpoints(edges)
  {
  }

  lemma StartSeesAll(rows: seq<Relationship>, seeds: seq<EntityId>, bounds: Bounds)
    ensures SeenAll(rows, Start(seeds, bounds.maxEntities), bounds, ToSet(OrderedSeeds(seeds, bounds.maxEntities)), 0)
  {
    hide ToSet, OrderedSeeds, Strong;
  }

  lemma {:induction false} AfterSeesAll(rows: seq<Relationship>, seeds: seq<EntityId>, bounds: Bounds, k: nat)
    requires DistinctRows(rows) && NoSelfEdges(rows)
    requires forall j: nat | j < k :: LayerFits(rows, After(rows, seeds, bounds, j), bounds)
    requires forall j: nat | j < k :: HasRoom(rows, After(rows, seeds, bounds, j), bounds)
    ensures SeenAll(rows, After(rows, seeds, bounds, k), bounds, ToSet(OrderedSeeds(seeds, bounds.maxEntities)), k)
  {
    hide Advance, LayerFits, HasRoom, ToSet, OrderedSeeds, DistinctRows, SeenAll, Start, NoSelfEdges, KnownRows;
    if k == 0 {
      StartSeesAll(rows, seeds, bounds);
    } else {
      AfterSeesAll(rows, seeds, bounds, k - 1);
      EveryEntityIsJoined(rows, seeds, bounds, k - 1);
      AdvanceSeesAll(rows, After(rows, seeds, bounds, k - 1), bounds, ToSet(OrderedSeeds(seeds, bounds.maxEntities)), k - 1);
    }
  }

  /** The row limit truncates no layer of this search. */
  ghost predicate NoLayerTruncated(rows: seq<Relationship>, seeds: seq<EntityId>, bounds: Bounds) {
    forall k: nat | k < bounds.maxDepth :: LayerFits(rows, After(rows, seeds, bounds, k), bounds)
  }

  lemma {:induction false} VisitedGrows(rows: seq<Relationship>, seeds: seq<EntityId>, bounds: Bounds, j: nat, k: nat)
    requires j <= k
    ensures After(rows, seeds, bounds, j).visited <= After(rows, seeds, bounds, k).visited
  {
    hide Advance;
    if j < k {
      VisitedGrows(rows, seeds, bounds, j, k - 1);
      SearchWithinBounds(rows, seeds, bounds, k - 1);
      AdvanceWithinBounds(rows, After(rows, seeds, bounds, k - 1), bounds);
    }
  }

  // A search that ends below its budget had room in every round.
  lemma NotFullHadRoom(rows: seq<Relationship>, seeds: seq<EntityId>, bounds: Bounds, j: nat)
    requires DistinctRows(rows) && NoSelfEdges(rows) && j < bounds.maxDepth
    requires |Neighborhood(rows, seeds, bounds).visited| < bounds.maxEntities
    ensures HasRoom(rows, After(rows, seeds, bounds, j), bounds)
  {
    hide LayerEdges, AbsorbAll, DistinctRows, Endpoints;
    var search := After(rows, seeds, bounds, j);
    var edges := LayerEdges(rows, search.frontier, bounds);
    VisitedGrows(rows, seeds, bounds, j, bounds.maxDepth);
    VisitedGrows(rows, seeds, bounds, j + 1, bounds.maxDepth);
    SubsetIsSmaller(search.visited, Neighborhood(rows, seeds, bounds).visited);
    SubsetIsSmaller(After(rows, seeds, bounds, j + 1).visited, Neighborhood(rows, seeds, bounds).visited);
    LayerRows(rows, search.frontier, bounds);
    EndpointsOfNone(edges);
    if search.frontier == {} {
      NoLayerWithoutFrontier(rows, bounds, search.frontier);
    } else if edges != [] {
      SearchWithinBounds(rows, seeds, bounds, j);
      EveryEntityIsJoined(rows, seeds, bounds, j);
      NotFullSkipsNothing(rows, search.(frontier := {}, depthUsed := search.depthUsed + 1), edges, bounds.maxEntities);
    }
    assert edges == [] ==> search.visited + Endpoints(edges) == search.visited;
  }

  lemma NoLayerWithoutFrontier(rows: seq<Relationship>, bounds: Bounds, frontier: set<EntityId>)
    ensures frontier == {} ==> LayerEdges(rows, frontier, bounds) == []
  {
    LayerRows(rows, frontier, bounds);
    var edges := LayerEdges(rows, frontier, bounds);
    assert edges != [] ==> edges[0] in edges;
  }

  // If everything one hop further fits the budget, the next round has room.
  lemma SmallHopHasRoom(rows: seq<Relationship>, search: Search, bounds: Bounds, ids: set<EntityId>, k: nat)
    requires SeenAll(rows, search, bounds, ids, k) && LayerFits(rows, search, bounds)
    requires |Within(Strong(rows, bounds.minConfidence), ids, k + 1)| <= bounds.maxEntities
    ensures HasRoom(rows, search, bounds)
  {
    hide LayerEdges, Neighbors, Strong, Endpoints, Within, SeenAll, LayerFits, EdgesAt, ToEdgeSet;
    FittingLayer(rows, search, bounds);
    EndpointsOfSet(LayerEdges(rows, search.frontier, bounds), Strong(rows, bounds.minConfidence), search.frontier);
    NextHop(rows, search, bounds, ids, k);
  }

  lemma {:induction false} SmallReachHasRoom(rows: seq<Relationship>, seeds: seq<EntityId>, bounds: Bounds, k: nat)
    requires DistinctRows(rows) && NoSelfEdges(rows) && NoLayerTruncated(rows, seeds, bounds) && k <= bounds.maxDepth
    requires var ids := ToSet(OrderedSeeds(seeds, bounds.maxEntities));
             |Within(Strong(rows, bounds.minConfidence), ids, bounds.maxDepth)| <= bounds.maxEntities
    ensures forall j: nat | j < k :: HasRoom(rows, After(rows, seeds, bounds, j), bounds)
  {
    hide ToSet, OrderedSeeds, DistinctRows, NoSelfEdges, Strong, Within, After, SeenAll, HasRoom, LayerFits;
    if k > 0 {
      var ids, strong := ToSet(OrderedSeeds(seeds, bounds.maxEntities)), Strong(rows, bounds.minConfidence);
      SmallReachHasRoom(rows, seeds, bounds, k - 1);
      AfterSeesAll(rows, seeds, bounds, k - 1);
      WithinFurther(strong, ids, k, bounds.maxDepth);
      SubsetIsSmaller(Within(strong, ids, k), Within(strong, ids, bounds.maxDepth));
      SmallHopHasRoom(rows, After(rows, seeds, bounds, k - 1), bounds, ids, k - 1);
    }
  }

  lemma {:induction false} SeedsAreWithin(edges: set<Relationship>, ids: set<EntityId>, k: nat)
    ensures ids <= Within(edges, ids, k)
  {
    if k > 0 {
      SeedsAreWithin(edges, ids, k - 1);
    }
  }

  /**
    Complete unless full.  When the row limit truncates no layer, the search returns exactly the
    entities within `max_depth` undirected hops of the seeds over edges of sufficient confidence if
    and only if these fit the entity budget, which they do whenever fewer entities than the budget
    are returned; the edges are then exactly those at an entity within `max_depth - 1` hops.
  */
  lemma CompleteUnlessFull(rows: seq<Relationship>, seeds: seq<EntityId>, bounds: Bounds)
    requires DistinctRows(rows) && NoSelfEdges(rows) && NoLayerTruncated(rows, seeds, bounds)
    ensures var result := Neighborhood(rows, seeds, bounds);
      var strong := Strong(rows, bounds.minConfidence);
      var all := Within(strong, ToSet(seeds), bounds.maxDepth);
      && (result.visited == all <==> |all| <= bounds.maxEntities)
      && (|result.visited| < bounds.maxEntities ==> |all| <= bounds.maxEntities)
      && (|all| <= bounds.maxEntities && bounds.maxDepth == 0 ==> result.found == map[])
      && (|all| <= bounds.maxEntities && bounds.maxDepth > 0 ==>
            result.found.Values == EdgesAt(strong, Within(strong, ToSet(seeds), bounds.maxDepth - 1)))
  {
    hide LayerEdges, DistinctRows, NoSelfEdges, Strong, Endpoints, Within, After, ToSet, OrderedSeeds, EdgesAt, HasRoom;
    var result := Neighborhood(rows, seeds, bounds);
    var strong := Strong(rows, bounds.minConfidence);
    var ids := ToSet(OrderedSeeds(seeds, bounds.maxEntities));
    var all := Within(strong, ToSet(seeds), bounds.maxDepth);
    SearchWithinBounds(rows, seeds, bounds, bounds.maxDepth);
    SeedsWithinBounds(seeds, bounds.maxEntities);
    if |all| <= bounds.maxEntities {
      SeedsAreWithin(strong, ToSet(seeds), bounds.maxDepth);
      SubsetIsSmaller(ToSet(seeds), all);
      SmallReachHasRoom(rows, seeds, bounds, bounds.maxDepth);
      AfterSeesAll(rows, seeds, bounds, bounds.maxDepth);
    } else if |result.visited| < bounds.maxEntities {
      VisitedGrows(rows, seeds, bounds, 0, bounds.maxDepth);
      StartVisited(rows, seeds, bounds);
      SubsetIsSmaller(ids, result.visited);
      forall j: nat | j < bounds.maxDepth ensures HasRoom(rows, After(rows, seeds, bounds, j), bounds) {
        NotFullHadRoom(rows, seeds, bounds, j);
      }
      AfterSeesAll(rows, seeds, bounds, bounds.maxDepth);
      assert false;
    }
  }

  lemma StartVisited(rows: seq<Relationship>, seeds: seq<EntityId>, bounds: Bounds)
    ensures After(rows, seeds, bounds, 0).visited == ToSet(OrderedSeeds(seeds, bounds.maxEntities))
  {
  }

  /** A table no larger than the row limit never has a layer truncated. */
  lemma SmallTableIsNotTruncated(rows: seq<Relationship>, seeds: seq<EntityId>, bounds: Bounds)
    requires |rows| <= bounds.maxEntities * 8
    ensures NoLayerTruncated(rows, seeds, bounds)
  {
    forall k: nat | k < bounds.maxDepth ensures LayerFits(rows, After(rows, seeds, bounds, k), bounds) {
      MatchingCount(rows, After(rows, seeds, bounds, k).frontier, bounds.minConfidence);
    }
  }

  lemma {:induction false} MatchingCount(rows: seq<Relationship>, frontier: set<EntityId>, minConfidence: real)
    ensures |Matching(rows, frontier, minConfidence)| <= |rows|
  {
    if rows != [] {
      MatchingCount(rows[1..], frontier, minConfidence);
    }
  }

  // ---- What a truncated or full search leaves out ----

  lemma AbsorbKeepsBudget(search: Search, edge: Relationship, maxEntities: nat)
    requires |search.visited| <= maxEntities && Touches(edge, search.visited)
    ensures var next := Absorb(search, edge, maxEntities);
      && |next.visited| <= maxEntities && search.visited <= next.visited <= search.visited + {edge.source, edge.target}
      && (edge.id in next.found || (next == search && |search.visited| == maxEntities))
      && (forall id | id in search.found :: id in next.found)
      && (next == search && edge.id !in search.found ==> edge.source !in search.visited || edge.target !in search.visited)
  {
    NewIdsCount(edge, search.visited);
  }

  lemma {:induction false} FullStays(search: Search, edges: seq<Relationship>, maxEntities: nat)
    requires |search.visited| >= maxEntities
    ensures AbsorbAll(search, edges, maxEntities).visited == search.visited
    decreases |edges|
  {
    if edges != [] {
      FullStays(Absorb(search, edges[0], maxEntities), edges[1..], maxEntities);
    }
  }

  ghost predicate AllTouch(edges: seq<Relationship>, ids: set<EntityId>) {
    forall edge | edge in edges :: Touches(edge, ids)
  }

  lemma RestTouches(edges: seq<Relationship>, ids: set<EntityId>, more: set<EntityId>)
    requires edges != [] && AllTouch(edges, ids) && ids <= more
    ensures AllTouch(edges[1..], more) && Touches(edges[0], ids)
  {
    assert forall edge | edge in edges[1..] :: edge in edges;
  }

  lemma {:induction false} AbsorbAllKeepsBudget(search: Search, edges: seq<Relationship>, maxEntities: nat)
    requires |search.visited| <= maxEntities && AllTouch(edges, search.visited)
    ensures var next := AbsorbAll(search, edges, maxEntities);
      |next.visited| <= maxEntities && (forall id | id in search.found :: id in next.found)
    decreases |edges|
  {
    hide Absorb, AllTouch;
    if edges != [] {
      RestTouches(edges, search.visited, search.visited);
      AbsorbKeepsBudget(search, edges[0], maxEntities);
      var first := Absorb(search, edges[0], maxEntities);
      RestTouches(edges, search.visited, first.visited);
      AbsorbAllKeepsBudget(first, edges[1..], maxEntities);
    }
  }

  // The budget is full, an end of the edge is not visited, and what was visited was before or by an earlier edge.
  ghost predicate CameTooLate(search: Search, edges: seq<Relationship>, i: nat, next: Search, maxEntities: nat)
    requires i < |edges|
  {
    && |next.visited| == maxEntities && (edges[i].source !in next.visited || edges[i].target !in next.visited)
    && forall id | id in next.visited && id !in search.visited ::
         exists h | 0 <= h < i :: id == edges[h].source || id == edges[h].target
  }

  /** An edge of a layer is found, or it came too late. */
  lemma {:induction false} FoundUnlessFull(search: Search, edges: seq<Relationship>, maxEntities: nat, i: nat)
    requires |search.visited| <= maxEntities && i < |edges| && AllTouch(edges, search.visited)
    requires edges[i].id !in search.found
    ensures var next := AbsorbAll(search, edges, maxEntities);
      edges[i].id in next.found || CameTooLate(search, edges, i, next, maxEntities)
    decreases |edges|
  {
    hide Absorb, AllTouch;
    RestTouches(edges, search.visited, search.visited);
    AbsorbKeepsBudget(search, edges[0], maxEntities);
    var first, rest := Absorb(search, edges[0], maxEntities), edges[1..];
    RestTouches(edges, search.visited, first.visited);
    AbsorbAllKeepsBudget(first, rest, maxEntities);
    if i == 0 {
      if edges[0].id !in first.found {
        FullStays(search, edges, maxEntities);
      }
    } else if rest[i - 1].id !in first.found {
      FoundUnlessFull(first, rest, maxEntities, i - 1);
      var next := AbsorbAll(first, rest, maxEntities);
      if edges[i].id !in next.found {
        LaterStill(search, first, edges, i, next, maxEntities);
      }
    }
  }

  lemma LaterStill(search: Search, first: Search, edges: seq<Relationship>, i: nat, next: Search, maxEntities: nat)
    requires 0 < i < |edges| && first.visited <= search.visited + {edges[0].source, edges[0].target}
    requires CameTooLate(first, edges[1..], i - 1, next, maxEntities)
    ensures CameTooLate(search, edges, i, next, maxEntities)
  {
    var rest := edges[1..];
    forall id | id in next.visited && id !in search.visited
      ensures exists h | 0 <= h < i :: id == edges[h].source || id == edges[h].target
    {
      if id !in first.visited {
        var h :| 0 <= h < i - 1 && (id == rest[h].source || id == rest[h].target);
        assert edges[h + 1] == rest[h];
      }
    }
  }

  predicate Qualifies(edge: Relationship, frontier: set<EntityId>, minConfidence: real) {
    (edge.source in frontier || edge.target in frontier) && edge.confidence >= minConfidence
  }

  ghost function Before(rows: seq<Relationship>, frontier: set<EntityId>, minConfidence: real, i: nat): set<nat>
    requires i <= |rows|
  {
    set h: nat | h < i && Qualifies(rows[h], frontier, minConfidence)
  }

  // The row is among the first of those that qualify, eight for each entity of the budget.
  ghost predicate Fetched(rows: seq<Relationship>, frontier: set<EntityId>, bounds: Bounds, i: nat)
    requires i < |rows|
  {
    && Qualifies(rows[i], frontier, bounds.minConfidence)
    && |Before(rows, frontier, bounds.minConfidence, i)| < bounds.maxEntities * 8
  }

  lemma {:induction false} MatchingAppend(a: seq<Relationship>, b: seq<Relationship>, frontier: set<EntityId>, minConfidence: real)
    ensures Matching(a + b, frontier, minConfidence) == Matching(a, frontier, minConfidence) + Matching(b, frontier, minConfidence)
  {
    if a == [] {
      assert a + b == b;
    } else {
      assert (a + b)[1..] == a[1..] + b;
      MatchingAppend(a[1..], b, frontier, minConfidence);
    }
  }

  lemma {:induction false} BeforeIsCounted(rows: seq<Relationship>, frontier: set<EntityId>, minConfidence: real, i: nat)
    requires i <= |rows|
    ensures |Matching(rows[..i], frontier, minConfidence)| == |Before(rows, frontier, minConfidence, i)|
  {
    if i > 0 {
      BeforeIsCounted(rows, frontier, minConfidence, i - 1);
      assert rows[..i] == rows[..i - 1] + [rows[i - 1]];
      MatchingAppend(rows[..i - 1], [rows[i - 1]], frontier, minConfidence);
      var earlier := Before(rows, frontier, minConfidence, i - 1);
      assert Before(rows, frontier, minConfidence, i)
          == if Qualifies(rows[i - 1], frontier, minConfidence) then earlier + {i - 1} else earlier;
    } else {
      assert Before(rows, frontier, minConfidence, 0) == {};
    }
  }

  ghost predicate AmongFirst(rows: seq<Relationship>, i: nat, edge: Relationship)
    requires i <= |rows|
  {
    exists h | 0 <= h < i :: edge == rows[h]
  }

  // The row stands there, behind rows that come before it in the table.
  ghost predicate StandsAt(rows: seq<Relationship>, i: nat, layer: seq<Relationship>, at: nat)
    requires i < |rows|
  {
    && at < |layer| && layer[at] == rows[i]
    && forall p | 0 <= p < at :: AmongFirst(rows, i, layer[p])
  }

  lemma StandsInPrefix(rows: seq<Relationship>, i: nat, layer: seq<Relationship>, all: seq<Relationship>, at: nat)
    requires i < |rows| && layer <= all && at < |layer| && StandsAt(rows, i, all, at)
    ensures StandsAt(rows, i, layer, at)
  {
    forall p | 0 <= p < at ensures AmongFirst(rows, i, layer[p]) {
      assert layer[p] == all[p];
    }
  }

  lemma StandsBehindPrefix(rows: seq<Relationship>, i: nat, layer: seq<Relationship>, all: seq<Relationship>, at: nat)
    requires Distinct(rows) && i < |rows| && layer <= all && |layer| <= at && StandsAt(rows, i, all, at)
    ensures rows[i] !in layer
  {
    forall q | 0 <= q < |layer| ensures layer[q] != rows[i] {
      assert layer[q] == all[q] && AmongFirst(rows, i, all[q]);
      var h :| 0 <= h < i && all[q] == rows[h];
    }
  }

  // Where a qualifying row stands among those that match.
  lemma PlaceOf(rows: seq<Relationship>, frontier: set<EntityId>, minConfidence: real, i: nat)
    requires i < |rows| && Qualifies(rows[i], frontier, minConfidence)
    ensures StandsAt(rows, i, Matching(rows, frontier, minConfidence), |Before(rows, frontier, minConfidence, i)|)
  {
    var before, after := Matching(rows[..i], frontier, minConfidence), rows[i..];
    assert rows == rows[..i] + after && after[0] == rows[i];
    MatchingAppend(rows[..i], after, frontier, minConfidence);
    BeforeIsCounted(rows, frontier, minConfidence, i);
    MatchingRows(rows[..i], frontier, minConfidence);
    forall p | 0 <= p < |before| ensures AmongFirst(rows, i, Matching(rows, frontier, minConfidence)[p]) {
      assert before[p] in rows[..i];
      var h :| 0 <= h < i && rows[..i][h] == before[p];
      assert rows[h] == before[p];
    }
  }

  /** A layer is made of the rows that are fetched, in the order of the table. */
  lemma LayerIsFetched(rows: seq<Relationship>, frontier: set<EntityId>, bounds: Bounds, i: nat)
    requires Distinct(rows) && i < |rows|
    ensures rows[i] in LayerEdges(rows, frontier, bounds) <==> Fetched(rows, frontier, bounds, i)
    ensures Fetched(rows, frontier, bounds, i) ==> exists at :: StandsAt(rows, i, LayerEdges(rows, frontier, bounds), at)
  {
    hide Matching, Before;
    var all, layer := Matching(rows, frontier, bounds.minConfidence), LayerEdges(rows, frontier, bounds);
    if Qualifies(rows[i], frontier, bounds.minConfidence) {
      PlaceOf(rows, frontier, bounds.minConfidence, i);
      var at := |Before(rows, frontier, bounds.minConfidence, i)|;
      if at < bounds.maxEntities * 8 {
        StandsInPrefix(rows, i, layer, all, at);
      } else {
        StandsBehindPrefix(rows, i, layer, all, at);
      }
    } else {
      LayerRows(rows, frontier, bounds);
    }
  }

  /**
    Whatever is cut off: of the rows fetched in a round those are found whose ends are both visited when the search
    ends; one is left out only for lack of room, after all that the rows before it brought in.
  */
  lemma NothingFittingIsLeftOut(rows: seq<Relationship>, seeds: seq<EntityId>, bounds: Bounds, j: nat, k: nat, i: nat)
    requires Distinct(RelationshipIds(rows)) && j < k && i < |rows|
    requires Fetched(rows, After(rows, seeds, bounds, j).frontier, bounds, i)
    ensures var begun, end := After(rows, seeds, bounds, j), After(rows, seeds, bounds, k);
      && (rows[i].id in end.found <==> rows[i].source in end.visited && rows[i].target in end.visited)
      && (rows[i].id !in end.found ==>
            && |end.visited| == bounds.maxEntities
            && forall id | id in end.visited && id !in begun.visited ::
                 exists h | 0 <= h < i :: id == rows[h].source || id == rows[h].target)
  {
    hide Advance, Fetched;
    DistinctIdsDistinctRows(rows);
    var begun, next, end := After(rows, seeds, bounds, j), After(rows, seeds, bounds, j + 1), After(rows, seeds, bounds, k);
    SearchWithinBounds(rows, seeds, bounds, j);
    SearchWithinBounds(rows, seeds, bounds, j + 1);
    SearchWithinBounds(rows, seeds, bounds, k);
    VisitedGrows(rows, seeds, bounds, j + 1, k);
    FoundGrows(rows, seeds, bounds, j, k);
    FoundGrows(rows, seeds, bounds, j + 1, k);
    if rows[i].id in end.found {
      FoundIsVisited(rows, end, bounds, i);
    } else {
      RoundLeavesOut(rows, begun, bounds, i);
      FullIsFinal(next.visited, end.visited, bounds.maxEntities);
    }
  }

  lemma FullIsFinal(ids: set<EntityId>, more: set<EntityId>, maxEntities: nat)
    requires ids <= more && |ids| == maxEntities && |more| <= maxEntities
    ensures ids == more
  {
    assert |more| == |ids| + |more - ids| by {
      assert more == ids + (more - ids);
    }
    assert more - ids == {};
  }

  lemma {:induction false} FoundGrows(rows: seq<Relationship>, seeds: seq<EntityId>, bounds: Bounds, j: nat, k: nat)
    requires j <= k
    ensures forall id | id in After(rows, seeds, bounds, j).found :: id in After(rows, seeds, bounds, k).found
  {
    hide AbsorbAll, LayerEdges, AllTouch;
    if j < k {
      FoundGrows(rows, seeds, bounds, j, k - 1);
      var search := After(rows, seeds, bounds, k - 1);
      SearchWithinBounds(rows, seeds, bounds, k - 1);
      LayerTouches(rows, search, bounds);
      AbsorbAllKeepsBudget(search.(frontier := {}, depthUsed := search.depthUsed + 1), LayerEdges(rows, search.frontier, bounds),
                           bounds.maxEntities);
    }
  }

  lemma LayerTouches(rows: seq<Relationship>, search: Search, bounds: Bounds)
    requires search.frontier <= search.visited
    ensures AllTouch(LayerEdges(rows, search.frontier, bounds), search.visited)
  {
    LayerRows(rows, search.frontier, bounds);
    hide LayerEdges;
  }

  lemma FoundIsVisited(rows: seq<Relationship>, search: Search, bounds: Bounds, i: nat)
    requires DistinctRows(rows) && WithinBounds(rows, search, bounds) && i < |rows| && rows[i].id in search.found
    ensures rows[i].source in search.visited && rows[i].target in search.visited
  {
    assert GoodEdge(rows, search, bounds, rows[i].id);
    assert search.found[rows[i].id] == rows[i];
  }

  // A fetched row that is not found in a round.
  lemma RoundLeavesOut(rows: seq<Relationship>, search: Search, bounds: Bounds, i: nat)
    requires Distinct(RelationshipIds(rows)) && i < |rows| && WithinBounds(rows, search, bounds)
    requires Fetched(rows, search.frontier, bounds, i)
    requires rows[i].id !in search.found && rows[i].id !in Advance(rows, search, bounds).found
    ensures var next := Advance(rows, search, bounds);
      && |next.visited| == bounds.maxEntities && (rows[i].source !in next.visited || rows[i].target !in next.visited)
      && forall id | id in next.visited && id !in search.visited ::
           exists h | 0 <= h < i :: id == rows[h].source || id == rows[h].target
  {
    hide AbsorbAll, LayerEdges, AllTouch, Fetched;
    assert Distinct(rows) by {
      assert forall a | 0 <= a < |rows| :: RelationshipIds(rows)[a] == rows[a].id;
    }
    LayerIsFetched(rows, search.frontier, bounds, i);
    var layer, begun := LayerEdges(rows, search.frontier, bounds), search.(frontier := {}, depthUsed := search.depthUsed + 1);
    var at :| StandsAt(rows, i, layer, at);
    LayerTouches(rows, search, bounds);
    LayerRows(rows, search.frontier, bounds);
    FoundUnlessFull(begun, layer, bounds.maxEntities, at);
    var next := AbsorbAll(begun, layer, bounds.maxEntities);
    forall id | id in next.visited && id !in search.visited
      ensures exists h | 0 <= h < i :: id == rows[h].source || id == rows[h].target
    {
      var p :| 0 <= p < at && (id == layer[p].source || id == layer[p].target);
      assert AmongFirst(rows, i, layer[p]);
    }
  }

  /** Up to the budget the seeds are those given, in their order. */
  lemma SeedsInOrder(seeds: seq<EntityId>, maxEntities: nat)
    requires Distinct(seeds)
    ensures OrderedSeeds(seeds, maxEntities) == if |seeds| <= maxEntities then seeds else seeds[..maxEntities]
  {
    UniqueStays(seeds);
  }

  lemma {:induction false} UniqueStays(ids: seq<EntityId>)
    requires Distinct(ids)
    ensures Unique(ids) == ids
  {
    if ids != [] {
      UniqueStays(ids[..|ids| - 1]);
      assert ids[|ids| - 1] !in ids[..|ids| - 1];
    }
  }
}
