/**
 * Clients of the cache that replay its promised behaviours on a fresh instance: dedup of
 * concurrent prefetches, FIFO eviction, waiter order, pending visibility, no negative
 * caching, non-segment pass-through, a completion that outlives its slot, and the limit of
 * the dedup: a second request for a key whose pending slot was trimmed away.
 * Each is proved from the contracts of `Cache` alone.
 */
module CacheScenarios {
  import opened SegmentKeys
  import opened SlotStore
  import opened SegmentCache

  /** Two prefetches of one URL before its fetch resolves issue one request. */
  method PrefetchTwiceBeforeCompletion(url: string, cacheKey: int) returns (first: bool, second: bool, fetches: seq<string>)
    ensures first == ShouldPrefetchUrl(url)
    ensures !second
    ensures fetches == (if first then [url] else [])
  {
    var cache := new Cache(0, cacheKey);
    first := cache.PrefetchStart(url);
    second := cache.PrefetchStart(url);
    fetches := cache.requests;
  }

  /** A prefetch of a URL with a new key whose fetch succeeds before anything else happens. */
  method FetchNew(cache: Cache, url: string, body: Payload)
    requires cache.Valid() && ShouldPrefetchUrl(url)
    requires forall i :: 0 <= i < |cache.ts| ==> cache.ts[i].key != cache.Key(url)
    modifies cache
    ensures cache.Valid()
    ensures cache.ts == Trimmed(old(cache.ts) + [Slot(cache.Key(url), Ready(body))], cache.maxSegments)
    ensures 0 < cache.maxSegments && |old(cache.ts)| < cache.maxSegments ==>
              cache.ts == old(cache.ts) + [Slot(cache.Key(url), Ready(body))]
    ensures 0 < cache.maxSegments && |old(cache.ts)| == cache.maxSegments ==>
              cache.ts == old(cache.ts)[1..] + [Slot(cache.Key(url), Ready(body))]
  {
    var issued := cache.PrefetchStart(url);
    IndexOfUniqueKey(cache.ts, |cache.ts| - 1);
    cache.CompleteSuccess(url, body);
    assert old(cache.ts) + [Slot(cache.Key(url), Ready(body))]
        == (old(cache.ts) + [Slot(cache.Key(url), Pending)])[|old(cache.ts)| := Slot(cache.Key(url), Ready(body))];
    if 0 < cache.maxSegments && |old(cache.ts)| <= cache.maxSegments {
      TrimmedAppend(old(cache.ts), Slot(cache.Key(url), Ready(body)), cache.maxSegments);
    }
  }

  /** With room for two, fetching A, B and C one after another leaves B and C, in that order. */
  method FetchThree(a: string, b: string, c: string, cacheKey: int, pa: Payload, pb: Payload, pc: Payload)
      returns (cache: Cache)
    requires ShouldPrefetchUrl(a) && ShouldPrefetchUrl(b) && ShouldPrefetchUrl(c)
    requires KeyFromUrl(a, cacheKey) != KeyFromUrl(b, cacheKey)
    requires KeyFromUrl(b, cacheKey) != KeyFromUrl(c, cacheKey)
    requires KeyFromUrl(a, cacheKey) != KeyFromUrl(c, cacheKey)
    ensures fresh(cache) && cache.Valid() && cache.cacheKey == cacheKey
    ensures cache.ts == [Slot(KeyFromUrl(b, cacheKey), Ready(pb)), Slot(KeyFromUrl(c, cacheKey), Ready(pc))]
  {
    cache := new Cache(2, cacheKey);
    var A, B, C := cache.Key(a), cache.Key(b), cache.Key(c);
    FetchNew(cache, a, pa);
    assert cache.ts == [Slot(A, Ready(pa))];
    FetchNew(cache, b, pb);
    assert cache.ts == [Slot(A, Ready(pa)), Slot(B, Ready(pb))];
    FetchNew(cache, c, pc);
  }

  /** ... and so A is a miss while B and C are hits. */
  method FifoEviction(a: string, b: string, c: string, cacheKey: int, pa: Payload, pb: Payload, pc: Payload)
      returns (ra: Lookup, rb: Lookup, rc: Lookup)
    requires ShouldPrefetchUrl(a) && ShouldPrefetchUrl(b) && ShouldPrefetchUrl(c)
    requires KeyFromUrl(a, cacheKey) != KeyFromUrl(b, cacheKey)
    requires KeyFromUrl(b, cacheKey) != KeyFromUrl(c, cacheKey)
    requires KeyFromUrl(a, cacheKey) != KeyFromUrl(c, cacheKey)
    ensures ra == Undefined && rb == Found(pb) && rc == Found(pc)
  {
    var cache := FetchThree(a, b, c, cacheKey, pa, pb, pc);
    ra := cache.Get(a);
    assert cache.ts[0].key == cache.Key(b);
    rb := cache.Get(b);
    assert cache.ts[1].key == cache.Key(c);
    rc := cache.Get(c);
  }

  /** Two waiters on one fetch are each called once, in registration order, with the same body. */
  method ListenersInOrder(url: string, cacheKey: int, cb1: CallbackId, cb2: CallbackId, body: Payload)
      returns (accepted1: bool, accepted2: bool, calls: seq<Invocation>, r: Lookup)
    requires ShouldPrefetchUrl(url)
    ensures accepted1 && accepted2
    ensures calls == [Invocation(cb1, body), Invocation(cb2, body)]
    ensures r == Found(body)
  {
    var cache := new Cache(0, cacheKey);
    var issued := cache.PrefetchStart(url);
    accepted1 := cache.AddListener(url, cb1);
    accepted2 := cache.AddListener(url, cb2);
    assert cache.invoked == [];
    cache.CompleteSuccess(url, body);
    calls := cache.invoked;
    assert cache.ts == [Slot(cache.Key(url), Ready(body))];
    assert cache.ts[0].key == cache.Key(url);
    r := cache.Get(url);
  }

  /** While the fetch is out, `get_segment` answers "pending", with or without waiters. */
  method PendingWhileInFlight(url: string, cacheKey: int, cb: CallbackId) returns (before: Lookup, after: Lookup)
    requires ShouldPrefetchUrl(url)
    ensures before == NotReady && after == NotReady
  {
    var cache := new Cache(0, cacheKey);
    var issued := cache.PrefetchStart(url);
    assert cache.ts == [Slot(cache.Key(url), Pending)];
    assert cache.ts[0].key == cache.Key(url);
    before := cache.Get(url);
    var accepted := cache.AddListener(url, cb);
    assert cache.ts == [Slot(cache.Key(url), Waiting([cb]))];
    assert cache.ts[0].key == cache.Key(url);
    after := cache.Get(url);
  }

  /** A failed fetch leaves no slot behind, and the next prefetch issues a new request. */
  method RetryAfterFailure(url: string, cacheKey: int) returns (afterFailure: Lookup, retried: bool, fetches: seq<string>)
    requires ShouldPrefetchUrl(url)
    ensures afterFailure == Undefined
    ensures retried && fetches == [url, url]
  {
    var cache := new Cache(0, cacheKey);
    var issued := cache.PrefetchStart(url);
    assert cache.ts == [Slot(cache.Key(url), Pending)] && cache.requests == [url];
    IndexOfUniqueKey(cache.ts, 0);
    cache.CompleteFailure(url);
    assert cache.ts == [];
    afterFailure := cache.Get(url);
    retried := cache.PrefetchStart(url);
    fetches := cache.requests;
  }

  /** A URL without the `.ts` marker is ignored by all three operations. */
  method NonSegmentIgnored(url: string, cacheKey: int, cb: CallbackId) returns (issued: bool, r: Lookup, accepted: bool, fetches: seq<string>)
    requires !ShouldPrefetchUrl(url)
    ensures !issued && r == Undefined && !accepted && fetches == []
  {
    var cache := new Cache(0, cacheKey);
    issued := cache.PrefetchStart(url);
    r := cache.Get(url);
    accepted := cache.AddListener(url, cb);
    fetches := cache.requests;
  }

  /**
   * With room for one, a waiter queues on A, then B is fetched and completes first: the trim
   * evicts A, waiter and all, before A's fetch resolves.
   */
  method EvictWhilePending(a: string, b: string, cacheKey: int, cb: CallbackId, pb: Payload) returns (cache: Cache)
    requires ShouldPrefetchUrl(a) && ShouldPrefetchUrl(b)
    requires KeyFromUrl(a, cacheKey) != KeyFromUrl(b, cacheKey)
    ensures fresh(cache) && cache.Valid() && cache.cacheKey == cacheKey
    ensures cache.ts == [Slot(KeyFromUrl(b, cacheKey), Ready(pb))] && cache.invoked == []
    ensures cache.requests == [a, b]
  {
    cache := new Cache(1, cacheKey);
    var A, B := cache.Key(a), cache.Key(b);
    var issued := cache.PrefetchStart(a);
    assert cache.ts == [Slot(A, Pending)] && cache.requests == [a];
    IndexOfUniqueKey(cache.ts, 0);
    var accepted := cache.AddListener(a, cb);
    assert cache.ts == [Slot(A, Waiting([cb]))] && cache.invoked == [];
    issued := cache.PrefetchStart(b);
    assert cache.ts == [Slot(A, Waiting([cb])), Slot(B, Pending)] && cache.requests == [a, b];
    IndexOfUniqueKey(cache.ts, 1);
    cache.CompleteSuccess(b, pb);
    assert Deliveries([], pb) == [];
  }

  /** ... so A's completion then changes nothing and its waiter is never called. */
  method CompletionAfterEviction(a: string, b: string, cacheKey: int, cb: CallbackId, pa: Payload, pb: Payload)
      returns (ra: Lookup, rb: Lookup, calls: seq<Invocation>)
    requires ShouldPrefetchUrl(a) && ShouldPrefetchUrl(b)
    requires KeyFromUrl(a, cacheKey) != KeyFromUrl(b, cacheKey)
    ensures ra == Undefined && rb == Found(pb) && calls == []
  {
    var cache := EvictWhilePending(a, b, cacheKey, cb, pb);
    cache.CompleteSuccess(a, pa);
    assert cache.ts[0].key == cache.Key(b);
    ra := cache.Get(a);
    rb := cache.Get(b);
    calls := cache.invoked;
  }

  /**
   * Dedup holds only while the placeholder is in the store. With room for one, B completing
   * while A is still in flight trims A's placeholder away (`EvictWhilePending`), and a second
   * prefetch of A then issues a second request for it.
   */
  method DuplicateFetchAfterEviction(a: string, b: string, cacheKey: int, cb: CallbackId, pb: Payload)
      returns (again: bool, fetches: seq<string>)
    requires ShouldPrefetchUrl(a) && ShouldPrefetchUrl(b)
    requires KeyFromUrl(a, cacheKey) != KeyFromUrl(b, cacheKey)
    ensures again && fetches == [a, b, a]
  {
    var cache := EvictWhilePending(a, b, cacheKey, cb, pb);
    again := cache.PrefetchStart(a);
    fetches := cache.requests;
  }
}
