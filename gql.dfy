/** The query executor: a process-wide memo from query text to response data. */
module Gql {
  import opened Common
  import opened Sponsorships

  /** The `data` payload of a response: the viewer, or None when the payload has none. */
  type Data = Option<Viewer>

  /** The cache of responses by exact query text. It only grows: entries are never
      replaced or removed. `fetches` counts the requests sent. */
  class QueryCache {
    var entries: map<string, Data>
    var fetches: nat

    /** Bookkeeping only: every entry was stored by a request of its own, so the
        cache never holds more entries than requests were sent. */
    ghost predicate Valid()
      reads this
    {
      |entries| <= fetches
    }

    constructor ()
      ensures Valid()
      ensures entries == map[] && fetches == 0
    {
      entries := map[];
      fetches := 0;
    }

    /** The data for `query`. A query already in the cache is answered from it
        without a request; otherwise one request is sent, `response` being its
        outcome, and a successful outcome is stored before it is returned. A failed
        request stores nothing and its error is passed on. */
    method Query(query: string, response: Result<Data, Error>) returns (r: Result<Data, Error>)
      requires Valid()
      modifies this
      ensures Valid()
      ensures query in old(entries) ==>
        r == Success(old(entries)[query]) && entries == old(entries) && fetches == old(fetches)
      ensures query !in old(entries) ==>
        r == response && fetches == old(fetches) + 1
        && entries == if response.Success? then old(entries)[query := response.value] else old(entries)
      ensures r.Success? ==> query in entries && entries[query] == r.value
      ensures forall q :: q in old(entries) ==> q in entries && entries[q] == old(entries)[q]
    {
      if query !in entries {
        fetches := fetches + 1;
        match response
        case Failure(e) =>
          return Failure(e);
        case Success(data) =>
          entries := entries[query := data];
      }
      r := Success(entries[query]);
    }
  }

  /** Asking twice for the same query sends at most one request, and once the
      first call has succeeded the second returns the same data. */
  method QueryTwice(cache: QueryCache, query: string, first: Result<Data, Error>, second: Result<Data, Error>)
    returns (r1: Result<Data, Error>, r2: Result<Data, Error>)
    requires cache.Valid()
    modifies cache
    ensures cache.Valid()
    ensures r1.Success? ==> r2 == r1 && cache.fetches <= old(cache.fetches) + 1
    ensures query in old(cache.entries) ==> r1 == r2 && cache.fetches == old(cache.fetches)
  {
    r1 := cache.Query(query, first);
    r2 := cache.Query(query, second);
  }
}
