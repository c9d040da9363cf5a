/**
 * The slot store behind the segment cache: the array `ts` of `{key, databuffer}` records,
 * oldest first, described here as a sequence of values, with the lookup, splice and
 * capacity trim the cache performs on it.
 */
module SlotStore {
  import opened Options

  /** An opaque callback handed to `add_listener`. */
  type CallbackId = nat

  /** A fetched segment body. */
  type Payload = seq<bv8>

  /**
   * What `databuffer` holds. The source overloads one field: `false` is a fetch in flight,
   * an array is a fetch in flight with callbacks waiting on it, and anything else is the body.
   */
  datatype State =
    | Pending
    | Waiting(callbacks: seq<CallbackId>)
    | Ready(payload: Payload)

  datatype Slot = Slot(key: string, state: State)

  /** One call of a callback with a payload. */
  datatype Invocation = Invocation(callback: CallbackId, payload: Payload)

  /** The callbacks queued in a slot state, in registration order. */
  function WaitersOf(s: State): seq<CallbackId> {
    if s.Waiting? then s.callbacks else []
  }

  /** The calls that flushing `callbacks` with `payload` makes: each one once, in order. */
  function Deliveries(callbacks: seq<CallbackId>, payload: Payload): seq<Invocation> {
    seq(|callbacks|, k requires 0 <= k < |callbacks| => Invocation(callbacks[k], payload))
  }

  /** The index the newest-to-oldest scan of `find_index_of_segment` stops at. */
  function IndexOfKey(ts: seq<Slot>, key: string): (index: Option<nat>)
    ensures index.None? <==> forall i :: 0 <= i < |ts| ==> ts[i].key != key
    ensures index.Some? ==> index.value < |ts| && ts[index.value].key == key
    ensures index.Some? ==> forall i :: index.value < i < |ts| ==> ts[i].key != key
  {
    if |ts| == 0 then None
    else if ts[|ts| - 1].key == key then Some(|ts| - 1)
    else IndexOfKey(ts[..|ts| - 1], key)
  }

  /** No two slots share a key. */
  predicate KeysUnique(ts: seq<Slot>) {
    forall i, j :: 0 <= i < j < |ts| ==> ts[i].key != ts[j].key
  }

  /** A waiter queue is created holding its first callback, so it is never empty. */
  predicate QueuesNonEmpty(ts: seq<Slot>) {
    forall i :: 0 <= i < |ts| ==> ts[i].state != Waiting([])
  }

  /** The invariant of the store: unique keys and no empty waiter queue. */
  predicate WellFormed(ts: seq<Slot>) {
    KeysUnique(ts) && QueuesNonEmpty(ts)
  }

  /** With unique keys the scan finds the one slot carrying the key. */
  lemma IndexOfUniqueKey(ts: seq<Slot>, i: nat)
    requires KeysUnique(ts) && i < |ts|
    ensures IndexOfKey(ts, ts[i].key) == Some(i)
  {
  }

  function Min(a: int, b: int): int {
    if a <= b then a else b
  }

  /** `Array.prototype.splice(start, count)` for `0 <= start <= |ts|`: a count past the end stops there. */
  function Spliced(ts: seq<Slot>, start: nat, count: nat): (r: seq<Slot>)
    requires start <= |ts|
    ensures |r| == |ts| - (Min(start + count, |ts|) - start)
  {
    ts[..start] + ts[Min(start + count, |ts|)..]
  }

  /** The splice keeps the slots before `start` in place and shifts the ones after the range down. */
  lemma SplicedKeepsRest(ts: seq<Slot>, start: nat, count: nat)
    requires start <= |ts|
    ensures forall i :: 0 <= i < start ==> Spliced(ts, start, count)[i] == ts[i]
    ensures forall i :: start <= i < |Spliced(ts, start, count)| ==>
              Spliced(ts, start, count)[i] == ts[i + (Min(start + count, |ts|) - start)]
  {
  }

  /** The largest size the trim leaves: `max_segments`, or nothing when it is negative. */
  function Capacity(maxSegments: int): nat {
    if maxSegments < 0 then 0 else maxSegments
  }

  /**
   * The cleanup after a successful fetch: drop the oldest slots beyond `maxSegments`, which
   * leaves `Capacity` slots, or all of them when there are fewer.
   */
  function Trimmed(ts: seq<Slot>, maxSegments: int): (r: seq<Slot>)
    ensures |r| == Min(|ts|, Capacity(maxSegments))
  {
    if |ts| > maxSegments then Spliced(ts, 0, |ts| - maxSegments) else ts
  }

  /** The slots the trim keeps are the newest ones, in their order. */
  lemma TrimmedKeepsNewest(ts: seq<Slot>, maxSegments: int)
    ensures Trimmed(ts, maxSegments) == ts[|ts| - Min(|ts|, Capacity(maxSegments))..]
  {
  }

  /**
   * FIFO order: a slot appended to a store that is within capacity stays, and it pushes out
   * exactly the oldest slot when the store was full.
   */
  lemma TrimmedAppend(ts: seq<Slot>, s: Slot, maxSegments: int)
    requires 0 < maxSegments && |ts| <= maxSegments
    ensures |ts| < maxSegments ==> Trimmed(ts + [s], maxSegments) == ts + [s]
    ensures |ts| == maxSegments ==> Trimmed(ts + [s], maxSegments) == ts[1..] + [s]
  {
    if |ts| == maxSegments {
      var t := ts + [s];
      assert Trimmed(t, maxSegments) == t[..0] + t[1..];
      assert t[1..] == ts[1..] + [s];
    }
  }

  /** Removing slots cannot create a duplicate key or an empty queue. */
  lemma SplicedWellFormed(ts: seq<Slot>, start: nat, count: nat)
    requires start <= |ts| && WellFormed(ts)
    ensures WellFormed(Spliced(ts, start, count))
  {
    var r := Spliced(ts, start, count);
    var end := Min(start + count, |ts|);
    forall i | 0 <= i < |r|
      ensures r[i] == ts[if i < start then i else i - start + end]
    {
    }
  }

  /** Removing the slot a unique key names leaves no slot with that key. */
  lemma SplicedDropsKey(ts: seq<Slot>, key: string)
    requires KeysUnique(ts) && IndexOfKey(ts, key).Some?
    ensures IndexOfKey(Spliced(ts, IndexOfKey(ts, key).value, 1), key).None?
  {
    var i := IndexOfKey(ts, key).value;
    var r := Spliced(ts, i, 1);
    forall k | 0 <= k < |r|
      ensures r[k].key != key
    {
      if k < i {
        assert r[k] == ts[k];
      } else {
        assert r[k] == ts[k + 1];
      }
    }
  }

  /** Appending a pending slot whose key is absent keeps the invariant. */
  lemma AppendWellFormed(ts: seq<Slot>, key: string)
    requires WellFormed(ts) && IndexOfKey(ts, key).None?
    ensures WellFormed(ts + [Slot(key, Pending)])
  {
  }

  /** Replacing a slot's state by one that is not an empty queue keeps the invariant. */
  lemma UpdateWellFormed(ts: seq<Slot>, i: nat, st: State)
    requires WellFormed(ts) && i < |ts| && st != Waiting([])
    ensures WellFormed(ts[i := Slot(ts[i].key, st)])
  {
  }
}
