/** Facts and functions on sequences, sets and integers that several modules share. */
module Collections {
  function Min(a: int, b: int): int {
    if a <= b then a else b
  }

  function Max(a: int, b: int): int {
    if a >= b then a else b
  }

  // `items[:n]`.
  function TakeFirst<T>(items: seq<T>, n: nat): seq<T> {
    if |items| <= n then items else items[..n]
  }

  ghost predicate Distinct<T(!new)>(items: seq<T>) {
    forall i, j | 0 <= i < j < |items| :: items[i] != items[j]
  }

  lemma DistinctAppend<T(!new)>(items: seq<T>, item: T)
    requires Distinct(items) && item !in items
    ensures Distinct(items + [item])
  {
  }

  lemma SubsetIsSmaller<T>(a: set<T>, b: set<T>)
    requires a <= b
    ensures |a| <= |b|
  {
    assert b == a + (b - a);
  }
}
