# HLS segment prefetch cache: a Dafny model

This project models the segment cache of the HLS proxy (`hls-proxy/segment_cache.js`). The cache fetches `.ts` media segments before a player asks for them. It serves bytes it already holds. It does not start a second fetch for a key while that key's placeholder is still in the store. A placeholder trimmed away by the capacity limit lifts that guard, even though its fetch is still outstanding.

The model has four parts:

- `SegmentKeys` (`keys.dfy`) covers the pure string logic. `ShouldPrefetchUrl` decides whether a URL is a segment. `KeyFromUrl` gives the cache key under strategy 0 (sequence number plus extension), strategy 1 (file name) or strategy 2 (the whole URL).
  - The source uses three regular expressions. Each one is written here as a predicate that says where a match lies under JavaScript's backtracking rules (`SequenceMatch`, `FilenameMatch`, `ExtensionAt`). Beside it is a search function whose contract says it finds exactly the match the engine reports.
  - `String.replace` with no match returns the URL unchanged.
- `SlotStore` (`slot_store.dfy`) holds the slot values.
  - `databuffer` is overloaded in the source: `false`, an array of callbacks, or the body. Here it is the variant `State = Pending | Waiting(callbacks) | Ready(payload)`.
  - This module also holds the newest-first lookup `IndexOfKey`, the `splice` (`Spliced`) and the capacity trim (`Trimmed`), with lemmas about keys, order and size.
- `SegmentCache` (`segment_cache.dfy`) holds the class `Cache`, one instance of the closure the module factory returns. Its field `ts: seq<Slot>` is the array `ts`, oldest first.
  - `prefetch_segment` is split into three events: its synchronous start (`PrefetchStart`), its success continuation (`CompleteSuccess`) and its failure continuation (`CompleteFailure`). Each continuation looks its slot up again by key, as the source does, so any interleaving of completions with other calls is a sequence of method calls.
  - Issued fetches are logged in `requests`. Callback calls are logged in `invoked`.
  - The object invariant `Valid()` says that keys are unique and that no waiter queue is empty. Every operation keeps it.
- `CacheScenarios` (`scenarios.dfy`) holds clients that replay the promised behaviours on a fresh cache, proved from the contracts of `Cache` alone:
  - dedup of concurrent prefetches, and its limit once a placeholder is evicted;
  - FIFO eviction with room for two;
  - waiter order;
  - pending visibility;
  - no negative caching;
  - non-segment pass-through;
  - a fetch that completes after its slot was evicted.

The code behaves as follows in cases that may surprise a reader:

- **Strategy 0** returns the *leftmost* run of digits followed by `.ts`, not a trailing one. This is because the prefix `.*?` is lazy.
- **Strategy 1** takes the *first* `/` that is followed, within the same run of non-`/` characters, by at least one character and then `.ts`. Within that run it takes the last such `.ts`. For `http://x/a.ts/b.ts` the key is `a.ts`. A run that begins with `.ts` does not count, so for `http://h/.ts/b.ts` the key is `b.ts`.
- **Line terminators** (`\n`, `\r`, U+2028, U+2029) are not matched by JavaScript's `.`. So under strategy 0 a URL containing one keeps its full text as key. Under strategy 1 one may appear only inside the captured file name.
- **`cache_key`** is compared with strict equality, so every value other than 1 and 2 selects strategy 0.
- **`max_segments`** of 0 becomes 20. A negative value is kept, and the trim then empties the store.
- **Waiter order.** On success the waiters are called *before* the body is stored (`segment_cache.js:80-87`).
- **Capacity.** The store is trimmed only after a successful completion. Pending placeholders can make it longer than `max_segments` until then (`EvictWhilePending` passes through two slots with room for one).
- **Dedup after eviction.** Once the trim has removed a pending placeholder, a new `prefetch_segment` for its URL misses at `:62` and issues a second request at `:71` while the first is still outstanding (`DuplicateFetchAfterEviction`).
- **Late completion.** When a fetch completes after its slot was evicted, the error thrown at `:77` is caught by the handler at `:95`. That handler's lookup finds nothing, so the store is unchanged. The callbacks that were queued on the evicted slot are never called (`CompletionAfterEviction`).

## Model

| member | source | states |
|---|---|---|
| `SegmentKeys.ExtensionFrom` | hls-proxy/segment_cache.js:17 | true exactly when some position at or after `i` holds `.ts` (either case of `t` and `s`) followed by `?`, `#` or the end of the URL |
| `SegmentKeys.ShouldPrefetchUrl` | hls-proxy/segment_cache.js:22-24 | a URL is a segment iff it contains `.ts`, case-insensitively, immediately followed by `?`, `#` or the end |
| `SegmentKeys.DigitRunEnd` | hls-proxy/segment_cache.js:19 | the greedy `\d+`: returns the end of the maximal run of ASCII digits starting at `p` |
| `SegmentKeys.SequenceEndUnique` | hls-proxy/segment_cache.js:19 | for a fixed start, at most one end position gives a match of `\d+\.ts` |
| `SegmentKeys.NoSequenceMatchAt` | hls-proxy/segment_cache.js:19 | if the digit run at `p` is empty or not followed by `.ts`, the pattern cannot match with its group starting at `p` |
| `SegmentKeys.FindSequence` | hls-proxy/segment_cache.js:19 | returns a match whose group start is the smallest at or after `p`, or none when no start at or after `p` matches |
| `SegmentKeys.SequenceLeftmostUnique` | hls-proxy/segment_cache.js:19 | the match the engine reports for `ts_sequence` is unique |
| `SegmentKeys.SequenceGroupShape` | hls-proxy/segment_cache.js:19 | the group of a `ts_sequence` match is one or more digits followed by `.ts` |
| `SegmentKeys.SequenceKey` | hls-proxy/segment_cache.js:39 | key strategy 0: the URL unchanged when `^.*?(\d+\.ts).*$` does not match, otherwise exactly the group of the leftmost match; a key other than the URL is digits followed by `.ts` |
| `SegmentKeys.LastFilenameEnd` | hls-proxy/segment_cache.js:18 | for a fixed `/`, returns the greatest `.ts` position at or below `hi` that completes a match (greedy `[^\/]+` with backtracking), or none if there is none |
| `SegmentKeys.FindFilename` | hls-proxy/segment_cache.js:18 | returns the match with the earliest `/` and, for it, the last `.ts`; or none when no `/` at or after `p` starts a match |
| `SegmentKeys.FilenameLeftmostUnique` | hls-proxy/segment_cache.js:18 | the match the engine reports for `ts_filename` is unique |
| `SegmentKeys.FilenameGroupShape` | hls-proxy/segment_cache.js:18 | the group of a `ts_filename` match contains no `/` and ends in `.ts` |
| `SegmentKeys.FilenameKey` | hls-proxy/segment_cache.js:34 | key strategy 1: the URL unchanged when `^.*?\/([^\/]+\.ts).*$` does not match, otherwise exactly the group of the reported match; a key other than the URL is a file name without `/` ending in `.ts` |
| `SegmentKeys.KeyFromUrl` | hls-proxy/segment_cache.js:26-42 | `get_key_from_url` (also `SegmentCache.Cache.Key`, which applies it with the instance's `cache_key`): strategy 2 returns the URL; otherwise a key that differs from the URL ends in `.ts` and is a `/`-free file name under strategy 1, or digits followed by `.ts` under strategy 0 and every other value |
| `SegmentKeys.KeyStrategies` | hls-proxy/segment_cache.js:26-42 | strategy 2 returns the URL; strategies 1 and 0 (the default for every other value) return it unchanged when their pattern does not match |
| `SegmentKeys.ExampleIsSegment` | hls-proxy/segment_cache.js:17 | `http://x/hls/42.ts?foo=bar` is a segment URL |
| `SegmentKeys.SequenceKeyExample` | hls-proxy/segment_cache.js:36-40 | strategy 0 maps `http://x/hls/42.ts?foo=bar` to `42.ts` |
| `SegmentKeys.FilenameKeyExample` | hls-proxy/segment_cache.js:26-35 | strategy 1 maps `http://x/hls/42.ts?foo=bar` to `42.ts`; strategy 2 keeps the whole URL |
| `SlotStore.IndexOfKey` | hls-proxy/segment_cache.js:44-55 | none iff no slot has the key; otherwise a slot with the key such that every newer slot has a different key |
| `SlotStore.IndexOfUniqueKey` | hls-proxy/segment_cache.js:44-55 | with unique keys, the lookup of a slot's key returns that slot's index |
| `SlotStore.Spliced` | hls-proxy/segment_cache.js:13 | `ts.splice(start, count)`: removes `count` slots from `start`, or all slots after `start` when fewer remain |
| `SlotStore.SplicedKeepsRest` | hls-proxy/segment_cache.js:13 | the slots before `start` keep their positions and the slots after the removed range move down by the number removed, in order |
| `SlotStore.Trimmed` | hls-proxy/segment_cache.js:89-93 | after the trim the store holds `min(size, max_segments)` slots, and none for a negative maximum |
| `SlotStore.TrimmedKeepsNewest` | hls-proxy/segment_cache.js:89-93 | the slots the trim keeps are exactly the newest ones, in their order |
| `SlotStore.TrimmedAppend` | hls-proxy/segment_cache.js:89-93 | appending to a store within capacity keeps every slot while there is room, and evicts exactly the oldest when it was full |
| `SlotStore.SplicedWellFormed` | hls-proxy/segment_cache.js:7-14 | removing a range of slots keeps keys unique and queues non-empty |
| `SlotStore.SplicedDropsKey` | hls-proxy/segment_cache.js:100-101 | with unique keys, removing the slot found for a key leaves no slot with that key |
| `SlotStore.AppendWellFormed` | hls-proxy/segment_cache.js:66-68 | appending a pending slot for an absent key keeps keys unique |
| `SlotStore.UpdateWellFormed` | hls-proxy/segment_cache.js:87 | replacing a slot's state (not by an empty queue) keeps the invariant |
| `SegmentCache.Cache.constructor` | hls-proxy/segment_cache.js:1-5 | `max_segments` 0 becomes 20, `cache_key` is kept, the store and both logs start empty, the invariant holds |
| `SegmentCache.Cache.FindIndexOfSegment` | hls-proxy/segment_cache.js:44-55 | the downward scan returns the newest index holding the URL's key, or none |
| `SegmentCache.Cache.GarbageCollect` | hls-proxy/segment_cache.js:7-14 | the store becomes the old store with `count` slots from `start` removed (clamped at the end) |
| `SegmentCache.Cache.PrefetchStart` | hls-proxy/segment_cache.js:57-71 | a request is issued iff the URL is a segment and no slot has its key; then exactly one pending slot is appended at the tail and exactly one request is logged; otherwise nothing changes |
| `SegmentCache.Cache.Flush` | hls-proxy/segment_cache.js:80-86 | every queued callback is called exactly once with the body, in registration order |
| `SegmentCache.Cache.StoreAndTrim` | hls-proxy/segment_cache.js:87-93 | the slot holds the body, then the oldest slots beyond `max_segments` are removed; the size is at most the capacity and the invariant holds |
| `SegmentCache.Cache.CompleteSuccess` | hls-proxy/segment_cache.js:72-94 | no slot for the key: nothing changes and no callback fires; otherwise the slot's waiters are called in order with the body, the slot becomes ready and the store is trimmed to capacity |
| `SegmentCache.Cache.CompleteFailure` | hls-proxy/segment_cache.js:95-102 | the slot for the key, if any, is removed and every other slot keeps its order; no waiter is called; afterwards no slot has the key |
| `SegmentCache.Cache.Get` | hls-proxy/segment_cache.js:106-136 | read-only; `undefined` for a non-segment URL or a miss, `false` iff a slot for the key is pending with or without waiters, the stored body iff it is ready |
| `SegmentCache.Cache.AddListener` | hls-proxy/segment_cache.js:138-165 | returns true iff the URL is a segment; pending: the queue becomes `[cb]`; waiting: `cb` is appended; ready: `cb` is called once with the body and the store is unchanged; no slot: nothing changes |
| `CacheScenarios.PrefetchTwiceBeforeCompletion` | hls-proxy/segment_cache.js:62-71 | two prefetches of one URL before completion issue exactly one request |
| `CacheScenarios.FetchNew` | hls-proxy/segment_cache.js:62-93 | a prefetch of a new key that then succeeds appends a ready slot, evicting exactly the oldest slot when the store was full |
| `CacheScenarios.FetchThree` | hls-proxy/segment_cache.js:89-93 | with room for two, A, B and C fetched in sequence leave B then C |
| `CacheScenarios.FifoEviction` | hls-proxy/segment_cache.js:89-93 | with room for two, after A, B and C, `get` misses A and hits B and C with their bodies |
| `CacheScenarios.ListenersInOrder` | hls-proxy/segment_cache.js:80-87 | two waiters on one fetch are each called once, in registration order, with the same body, which `get` then returns |
| `CacheScenarios.PendingWhileInFlight` | hls-proxy/segment_cache.js:113-120 | while a fetch is out, `get` answers `false` with or without waiters |
| `CacheScenarios.RetryAfterFailure` | hls-proxy/segment_cache.js:95-101 | after a failed fetch, `get` misses and the next prefetch issues a second request |
| `CacheScenarios.NonSegmentIgnored` | hls-proxy/segment_cache.js:58 | for a non-segment URL no request is issued, `get` returns `undefined` (`:107`), `add_listener` returns false (`:139`) |
| `CacheScenarios.EvictWhilePending` | hls-proxy/segment_cache.js:89-93 | with room for one, B completing before A evicts A's pending slot together with its waiter; two requests were issued |
| `CacheScenarios.DuplicateFetchAfterEviction` | hls-proxy/segment_cache.js:57-93 | after A's placeholder is trimmed away while its fetch is outstanding, a new prefetch of A issues a second request: the log is `[A, B, A]` |
| `CacheScenarios.CompletionAfterEviction` | hls-proxy/segment_cache.js:75-77 | a success for an evicted slot changes nothing: A misses, B hits, and A's waiter is never called |

## Left out

- The transport (`request`, `get_request_options`, `:70-71`) is a foreign call. A fetch is modelled as the URL logged in `requests`, and its outcome as an explicit `CompleteSuccess` or `CompleteFailure` event.
- Promise scheduling (`:72`, `:95`) is not modelled. The events are separate methods, so every interleaving is a sequence of calls.
- Callbacks are opaque ids, and each call is logged in `invoked`. A callback that throws or calls back into the cache during the flush (`:81-85`) is not modelled.
- The diagnostics are not modelled: every `debug(...)` call, the `debug_url` computation, the error message texts (`:77`, `:97`) and the periodic key dump (`:167-173`). None of them affects the state.
- The loop in `ts_garbage_collect` that sets `databuffer = undefined` (`:8-12`) is not modelled. Every slot it clears is spliced out on `:13` in the same synchronous step, so nothing can observe it.
- The options are integers. A non-integer `max_segments`, or a non-number `cache_key` such as the string `"1"`, is not modelled. Other falsy option values (`undefined`, `null`) behave like 0.
- JavaScript strings are UTF-16 code units, and here characters are Unicode scalar values. The three patterns only test ASCII characters and the four line terminators, so the two readings agree except on unpaired surrogates, which are not modelled.
- The null check `segment &&` at `:49` is left out, because a slot object is never falsy.
