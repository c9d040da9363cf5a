/**
 * The prefetch cache returned by the module factory: one instance owns the slot array `ts`
 * and answers `prefetch_segment`, `get_segment` and `add_listener`.
 *
 * `prefetch_segment` starts a fetch and continues in a promise chain; the model splits it
 * into the synchronous start and the two continuations, each an event of its own, so that
 * any interleaving of fetch completions with other calls is a sequence of method calls.
 * The fetch itself is recorded in `requests`; callbacks are opaque ids and each call is
 * recorded in `invoked`.
 */
module SegmentCache {
  import opened Options
  import opened SegmentKeys
  import opened SlotStore

  /** What `get_segment` returns: `undefined`, `false` (fetch in flight), or the body. */
  datatype Lookup = Undefined | NotReady | Found(payload: Payload)

  class Cache {
    /** The slots, oldest first. */
    var ts: seq<Slot>
    /** `max_segments` after defaulting. */
    const maxSegments: int
    /** `cache_key`: the key strategy. */
    const cacheKey: int
    /** The URLs of the fetches issued, in order. */
    var requests: seq<string>
    /** The callback calls made, in order. */
    var invoked: seq<Invocation>

    /** Keys are unique, and a waiter queue is never empty (it is created holding its first callback). */
    ghost predicate Valid()
      reads this
    {
      WellFormed(ts)
    }

    /** The cache key of a URL under this instance's strategy. */
    function Key(url: string): string {
      KeyFromUrl(url, cacheKey)
    }

    /** The factory: `max_segments || 20`, `cache_key || 0`, and an empty `ts`. */
    constructor (maxSegmentsOption: int, cacheKeyOption: int)
      ensures maxSegments == (if maxSegmentsOption == 0 then 20 else maxSegmentsOption)
      ensures cacheKey == cacheKeyOption
      ensures ts == [] && requests == [] && invoked == []
      ensures Valid()
    {
      maxSegments := if maxSegmentsOption == 0 then 20 else maxSegmentsOption;
      cacheKey := cacheKeyOption;
      ts := [];
      requests := [];
      invoked := [];
    }

    /** `find_index_of_segment`: scan from the newest slot to the oldest. */
    method FindIndexOfSegment(url: string) returns (index: Option<nat>)
      ensures index == IndexOfKey(ts, Key(url))
    {
      var key := Key(url);
      var i := |ts| - 1;
      while i >= 0
        invariant -1 <= i < |ts|
        invariant forall j :: i < j < |ts| ==> ts[j].key != key
      {
        if ts[i].key == key {
          return Some(i);
        }
        i := i - 1;
      }
      return None;
    }

    /** `ts_garbage_collect`: splice `count` slots out from `start`. */
    method GarbageCollect(start: nat, count: nat)
      requires start <= |ts|
      modifies this`ts
      ensures ts == Spliced(old(ts), start, count)
    {
      var end := if start + count <= |ts| then start + count else |ts|;
      ts := ts[..start] + ts[end..];
    }

    /**
     * The synchronous part of `prefetch_segment`: unless a slot for the key exists, append a
     * pending placeholder and only then issue the one request for it.
     */
    method PrefetchStart(url: string) returns (issued: bool)
      requires Valid()
      modifies this`ts, this`requests
      ensures Valid()
      ensures issued <==> ShouldPrefetchUrl(url) && IndexOfKey(old(ts), Key(url)).None?
      ensures issued ==> ts == old(ts) + [Slot(Key(url), Pending)] && requests == old(requests) + [url]
      ensures !issued ==> ts == old(ts) && requests == old(requests)
    {
      if !ShouldPrefetchUrl(url) {
        return false;
      }
      var index := FindIndexOfSegment(url);
      if index.None? {
        AppendWellFormed(ts, Key(url));
        ts := ts + [Slot(Key(url), Pending)];
        requests := requests + [url];
        issued := true;
      } else {
        issued := false;
      }
    }

    /** The `forEach` over a waiter queue: call each callback once, in order, with the body. */
    method Flush(callbacks: seq<CallbackId>, response: Payload)
      modifies this`invoked
      ensures invoked == old(invoked) + Deliveries(callbacks, response)
    {
      for k := 0 to |callbacks|
        invariant invoked == old(invoked) + Deliveries(callbacks[..k], response)
      {
        invoked := invoked + [Invocation(callbacks[k], response)];
      }
      assert callbacks[..|callbacks|] == callbacks;
    }

    /**
     * Lines 87-93 of the success continuation: store the body in slot `i`, then splice out
     * the oldest slots beyond `max_segments`.
     */
    method StoreAndTrim(i: nat, response: Payload)
      requires WellFormed(ts) && i < |ts|
      modifies this`ts
      ensures WellFormed(ts)
      ensures ts == Trimmed(old(ts)[i := Slot(old(ts)[i].key, Ready(response))], maxSegments)
      ensures |ts| <= Capacity(maxSegments)
    {
      UpdateWellFormed(ts, i, Ready(response));
      ts := ts[i := Slot(ts[i].key, Ready(response))];
      if |ts| > maxSegments {
        var overflow := |ts| - maxSegments;
        SplicedWellFormed(ts, 0, overflow);
        GarbageCollect(0, overflow);
      }
    }

    /**
     * The success continuation of `prefetch_segment`. The slot is looked up again by key. If
     * it is gone, the error thrown inside the continuation is caught by the failure handler,
     * whose own lookup finds nothing either, so nothing changes. Otherwise the waiters are
     * called in order with the body, the body is stored, and the oldest slots beyond
     * `max_segments` are spliced out.
     */
    method CompleteSuccess(url: string, response: Payload)
      requires Valid()
      modifies this`ts, this`invoked
      ensures Valid()
      ensures IndexOfKey(old(ts), Key(url)).None? ==> ts == old(ts) && invoked == old(invoked)
      ensures IndexOfKey(old(ts), Key(url)).Some? ==>
                var i := IndexOfKey(old(ts), Key(url)).value;
                && invoked == old(invoked) + Deliveries(WaitersOf(old(ts)[i].state), response)
                && ts == Trimmed(old(ts)[i := Slot(Key(url), Ready(response))], maxSegments)
                && |ts| <= Capacity(maxSegments)
    {
      var index := FindIndexOfSegment(url);
      if index.None? {
        return;
      }
      var i := index.value;
      var segment := ts[i].state;
      if segment.Waiting? {
        Flush(segment.callbacks, response);
      } else {
        assert Deliveries(WaitersOf(segment), response) == [];
      }
      StoreAndTrim(i, response);
    }

    /**
     * The failure continuation of `prefetch_segment`: the slot, found again by key, is
     * spliced out if it is still there; no waiter is called.
     */
    method CompleteFailure(url: string)
      requires Valid()
      modifies this`ts
      ensures Valid()
      ensures IndexOfKey(old(ts), Key(url)).None? ==> ts == old(ts)
      ensures IndexOfKey(old(ts), Key(url)).Some? ==>
                ts == Spliced(old(ts), IndexOfKey(old(ts), Key(url)).value, 1)
      ensures IndexOfKey(ts, Key(url)).None?
    {
      var index := FindIndexOfSegment(url);
      if index.Some? {
        SplicedWellFormed(ts, index.value, 1);
        SplicedDropsKey(ts, Key(url));
        GarbageCollect(index.value, 1);
      }
    }

    /**
     * `get_segment`: `undefined` for a non-segment URL or a miss, `false` while the fetch is
     * in flight (with or without waiters), the body once it is stored. It changes nothing.
     */
    method Get(url: string) returns (r: Lookup)
      requires Valid()
      ensures !ShouldPrefetchUrl(url) ==> r == Undefined
      ensures ShouldPrefetchUrl(url) ==> (r == Undefined <==> forall i :: 0 <= i < |ts| ==> ts[i].key != Key(url))
      ensures r == NotReady <==>
                ShouldPrefetchUrl(url) && exists i :: 0 <= i < |ts| && ts[i].key == Key(url) && !ts[i].state.Ready?
      ensures r.Found? ==> ShouldPrefetchUrl(url) && Slot(Key(url), Ready(r.payload)) in ts
      ensures ShouldPrefetchUrl(url) ==>
                forall i :: 0 <= i < |ts| && ts[i].key == Key(url) && ts[i].state.Ready? ==> r == Found(ts[i].state.payload)
    {
      if !ShouldPrefetchUrl(url) {
        return Undefined;
      }
      var index := FindIndexOfSegment(url);
      if index.None? {
        return Undefined;
      }
      IndexOfUniqueKey(ts, index.value);
      var segment := ts[index.value].state;
      if segment.Pending? || segment.Waiting? {
        return NotReady;
      }
      return Found(segment.payload);
    }

    /**
     * `add_listener`: for a segment URL, queue `cb` on a slot in flight or call it at once
     * with a stored body, and answer `true`; a URL without a slot changes nothing.
     */
    method AddListener(url: string, cb: CallbackId) returns (accepted: bool)
      requires Valid()
      modifies this`ts, this`invoked
      ensures Valid()
      ensures accepted == ShouldPrefetchUrl(url)
      ensures !accepted || IndexOfKey(old(ts), Key(url)).None? ==> ts == old(ts) && invoked == old(invoked)
      ensures accepted && IndexOfKey(old(ts), Key(url)).Some? ==>
                var i := IndexOfKey(old(ts), Key(url)).value;
                match old(ts)[i].state
                case Pending =>
                  ts == old(ts)[i := Slot(Key(url), Waiting([cb]))] && invoked == old(invoked)
                case Waiting(callbacks) =>
                  ts == old(ts)[i := Slot(Key(url), Waiting(callbacks + [cb]))] && invoked == old(invoked)
                case Ready(payload) =>
                  ts == old(ts) && invoked == old(invoked) + [Invocation(cb, payload)]
    {
      if !ShouldPrefetchUrl(url) {
        return false;
      }
      var index := FindIndexOfSegment(url);
      if index.Some? {
        var i := index.value;
        var segment := ts[i].state;
        match segment
        case Pending =>
          UpdateWellFormed(ts, i, Waiting([cb]));
          ts := ts[i := Slot(ts[i].key, Waiting([cb]))];
        case Waiting(callbacks) =>
          UpdateWellFormed(ts, i, Waiting(callbacks + [cb]));
          ts := ts[i := Slot(ts[i].key, Waiting(callbacks + [cb]))];
        case Ready(payload) =>
          invoked := invoked + [Invocation(cb, payload)];
      }
      return true;
    }
  }
}
