/**
 * The pattern every list handler follows: look the request's cache key up in
 * the shared cache, and on a miss compute the body, store it with the
 * handler's TTL and return it; pages are `offset = (page - 1) * limit` into
 * the query's ordered results, and `totalPages = Math.ceil(total / limit)`.
 *
 * A query's results are an ordered sequence supplied by the caller; the
 * count aggregation is its length and `.limit(limit).offset(offset)` is a
 * slice of it.
 */
module Listing {
  import opened Common
  import opened TtlCache
  import opened Records

  /** `(page - 1) * limit` */
  function Offset(page: int, limit: int): (o: int)
    ensures page >= 1 && limit >= 1 ==> 0 <= o && o + limit == page * limit
  {
    (page - 1) * limit
  }

  /** `Math.ceil(total / limit)` */
  function TotalPages(total: nat, limit: int): (n: nat)
    requires limit > 0
    ensures n * limit >= total && (n - 1) * limit < total
  {
    CeilDiv(total, limit)
  }

  /** `query.limit(limit).offset(offset)` over the query's ordered results. */
  function PageOf<T>(results: seq<T>, page: int, limit: int): (r: seq<T>)
    requires page >= 1 && limit >= 1
    ensures |r| <= limit
    ensures r != [] ==> Offset(page, limit) + |r| <= |results|
    ensures forall i :: 0 <= i < |r| ==> Offset(page, limit) + i < |results| && r[i] == results[Offset(page, limit) + i]
  {
    Slice(results, Offset(page, limit), Offset(page, limit) + limit)
  }

  /** `.map(f)` over one page of the query's results. */
  function MapPage<D, T>(results: seq<D>, page: int, limit: int, f: D -> T): (r: seq<T>)
    requires page >= 1 && limit >= 1
    ensures |r| == |PageOf(results, page, limit)| <= limit
    ensures forall i :: 0 <= i < |r| ==> r[i] == f(results[Offset(page, limit) + i])
  {
    var docs := PageOf(results, page, limit);
    seq(|docs|, i requires 0 <= i < |docs| => f(docs[i]))
  }

  /**
   * `{ items, total, currentPage, totalPages }` for one page of the query's
   * results, each shaped by `f`.
   */
  function ListPage<D, T>(results: seq<D>, page: int, limit: int, f: D -> T): (r: Page<T>)
    requires page >= 1 && limit >= 1
    ensures r.total == |results| && r.currentPage == page && r.totalPages == TotalPages(|results|, limit)
    ensures |r.items| == |PageOf(results, page, limit)| <= limit
    ensures forall i :: 0 <= i < |r.items| ==> r.items[i] == f(results[Offset(page, limit) + i])
    ensures r.items != [] ==> page <= r.totalPages
  {
    var items := MapPage(results, page, limit, f);
    var r := Page(items, |results|, page, TotalPages(|results|, limit));
    if items == [] then r else NonEmptyPageWithinTotal(results, page, limit); r
  }

  /** A page has items only up to the last page `totalPages` announces. */
  lemma NonEmptyPageWithinTotal<T>(results: seq<T>, page: int, limit: int)
    requires page >= 1 && limit >= 1 && PageOf(results, page, limit) != []
    ensures page <= TotalPages(|results|, limit)
  {
    var n := TotalPages(|results|, limit);
    assert Offset(page, limit) < |results| <= n * limit;
    FactorLess(page - 1, n, limit);
  }

  /**
   * Every result appears on exactly one page: the `i`-th one sits at position
   * `i % limit` of page `i / limit + 1`, which is never past `totalPages`.
   */
  lemma {:induction false} EveryResultOnItsPage<T>(results: seq<T>, limit: int, i: nat)
    requires limit >= 1 && i < |results|
    ensures var page := i / limit + 1;
      page <= TotalPages(|results|, limit)
      && i % limit < |PageOf(results, page, limit)|
      && PageOf(results, page, limit)[i % limit] == results[i]
  {
    var q, r := i / limit, i % limit;
    QuotientSplit(i, limit);
    var n := TotalPages(|results|, limit);
    assert q * limit < n * limit;
    FactorLess(q, n, limit);
    assert Offset(q + 1, limit) == q * limit;
    PositionOnPage(results, limit, q + 1, r);
  }

  /** A whole division splits `i` into whole pages of `limit` and a remainder below `limit`. */
  lemma QuotientSplit(i: nat, limit: int)
    requires limit >= 1
    ensures (i / limit) * limit + i % limit == i && 0 <= i % limit < limit
  {
  }

  /** Position `r` of page `page` is result `(page - 1) * limit + r`, when that exists. */
  lemma PositionOnPage<T>(results: seq<T>, limit: int, page: int, r: int)
    requires limit >= 1 && page >= 1 && 0 <= r < limit && Offset(page, limit) + r < |results|
    ensures r < |PageOf(results, page, limit)| && PageOf(results, page, limit)[r] == results[Offset(page, limit) + r]
  {
  }

  /** What a cached list handler answers and leaves in the store, as a function of the store. */
  function Serve(m: map<string, CacheItem<Payload>>, key: string, now: int, ttlMinutes: int, computed: Payload)
    : (Served, map<string, CacheItem<Payload>>)
  {
    var hit := Lookup(m, key, now);
    if hit.Some? && PayloadTruthy(hit.value) then (Served(hit.value, true), AfterGet(m, key, now))
    else (Served(computed, false), AfterGet(m, key, now)[key := CacheItem(computed, now, TtlMs(ttlMinutes))])
  }

  /** A live, truthy entry is answered from the store, marked as such, and the store is unchanged. */
  lemma ServeHit(m: map<string, CacheItem<Payload>>, key: string, now: int, ttlMinutes: int, computed: Payload)
    requires key in m && !Expired(m[key], now) && PayloadTruthy(m[key].data)
    ensures Serve(m, key, now, ttlMinutes, computed) == (Served(m[key].data, true), m)
  {
  }

  /**
   * On a miss the computed body is answered, and until its TTL has elapsed the
   * next request with the same key is answered from the store with it.
   */
  lemma ServeMissThenHit(m: map<string, CacheItem<Payload>>, key: string, now: int, ttlMinutes: int, computed: Payload, later: int)
    requires Lookup(m, key, now).None? && PayloadTruthy(computed)
    requires now <= later && later - now <= ttlMinutes * 60000
    ensures Serve(m, key, now, ttlMinutes, computed).0 == Served(computed, false)
    ensures var m' := Serve(m, key, now, ttlMinutes, computed).1;
      Serve(m', key, later, ttlMinutes, computed).0 == Served(computed, true)
  {
  }

  /** Serving one key never changes what another key answers. */
  lemma ServeOtherKeys(m: map<string, CacheItem<Payload>>, key: string, now: int, ttlMinutes: int, computed: Payload, other: string)
    requires other != key
    ensures Lookup(Serve(m, key, now, ttlMinutes, computed).1, other, now) == Lookup(m, other, now)
  {
  }

  /** The cache-aside step of a list handler, run against the shared store. */
  method CachedFetch(cache: SmartCache<Payload>, key: string, now: int, ttlMinutes: int, computed: Payload)
    returns (served: Served)
    modifies cache
    ensures (served, cache.entries) == Serve(old(cache.entries), key, now, ttlMinutes, computed)
  {
    var cached := cache.Get(key, now);
    if cached.Some? && PayloadTruthy(cached.value) {
      return Served(cached.value, true);
    }
    cache.Set(key, computed, now, ttlMinutes);
    served := Served(computed, false);
  }
}
