/**
 * The part of the react-query client the pages use: an exact map from query key
 * to cached data, `getQueryData`, `setQueryData` and `invalidateQueries`. A
 * key is the array literal the pages pass, compared element by element; an
 * invalidation is recorded against the exact key it was given.
 */
module QueryCache {
  import opened Js
  import opened Mapper

  type Key = seq<Value>

  /** What the pages cache: a list of PRs or one PR's details. */
  datatype Cached = ListOf(prs: seq<Pr>) | DetailOf(pr: Pr)

  /** `["pr-details", prId]` */
  function DetailKey(prId: string): (k: Key)
    ensures IsDetailKey(k)
  {
    [Str("pr-details"), Str(prId)]
  }

  predicate IsDetailKey(k: Key) {
    |k| >= 1 && k[0] == Str("pr-details")
  }

  /**
   * react-query's matching: invalidating a key marks every query whose key
   * starts with it, so a query cached under `shown` is refetched.
   */
  predicate Marks(invalidated: set<Key>, shown: Key) {
    exists k :: k in invalidated && k <= shown
  }

  /** A details key holds one PR; every other key holds a list. */
  predicate Fits(k: Key, c: Cached) {
    IsDetailKey(k) <==> c.DetailOf?
  }

  class QueryClient {
    var entries: map<Key, Cached>
    var invalidated: set<Key>

    ghost predicate Valid()
      reads this
    {
      forall k | k in entries :: Fits(k, entries[k])
    }

    constructor ()
      ensures Valid()
      ensures entries == map[] && invalidated == {}
    {
      entries := map[];
      invalidated := {};
    }

    /** `getQueryData(key)`: the cached data, or undefined. */
    function GetQueryData(key: Key): (r: Option<Cached>)
      reads this
      ensures r.Some? <==> key in entries
      ensures r.Some? ==> r.value == entries[key]
    {
      if key in entries then Some(entries[key]) else None
    }

    method SetQueryData(key: Key, data: Cached)
      requires Valid() && Fits(key, data)
      modifies this
      ensures Valid()
      ensures entries == old(entries)[key := data]
      ensures invalidated == old(invalidated)
    {
      entries := entries[key := data];
    }

    method InvalidateQueries(key: Key)
      modifies this
      ensures entries == old(entries)
      ensures invalidated == old(invalidated) + {key}
    {
      invalidated := invalidated + {key};
    }
  }
}
