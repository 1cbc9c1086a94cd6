/**
 * `Cache<T>`: the handle-keyed table the bridge keeps on the Java side for
 * host objects the native side must find again (function callbacks,
 * capabilities and externals). Both generations have the same class.
 */
module HandleCache {
  import opened Wrappers
  import opened JavaTypes

  /**
   * What `HashMap.get` answers for a handle: the stored value, or `null`
   * when nothing is stored. A stored `null` reads the same as no entry.
   */
  function Lookup<T>(entries: map<Long, Option<T>>, handle: Long): Option<T> {
    if handle in entries then entries[handle] else None
  }

  class Cache<T> {
    /** The backing `HashMap<Long, T>`; a `null` value is `None`. */
    var entries: map<Long, Option<T>>

    constructor ()
      ensures entries == map[]
    {
      entries := map[];
    }

    /** `store(handle, value)`: puts `value` under `handle`, replacing what was there. */
    method Store(handle: Long, value: Option<T>)
      modifies this
      ensures entries == old(entries)[handle := value]
    {
      entries := entries[handle := value];
    }

    /** `get(handle)`: the value stored under `handle`, `null` if there is none; never throws. */
    method Get(handle: Long) returns (value: Option<T>)
      ensures value == Lookup(entries, handle)
      ensures handle !in entries ==> value.None?
    {
      if handle in entries {
        value := entries[handle];
      } else {
        value := None;
      }
    }

    /** `delete(handle)`: removes the entry under `handle`, if any. */
    method Delete(handle: Long)
      modifies this
      ensures entries == old(entries) - {handle}
    {
      entries := entries - {handle};
    }

    /** `clear()`: removes every entry. */
    method Clear()
      modifies this
      ensures entries == map[]
    {
      entries := map[];
    }
  }

  /** After a store, a lookup of that handle gives the stored value. */
  lemma StoreThenLookup<T>(entries: map<Long, Option<T>>, handle: Long, value: Option<T>)
    ensures Lookup(entries[handle := value], handle) == value
  {
  }

  /** A store changes no other handle's entry; any long, 0 and negatives included, is a key. */
  lemma StoreKeepsOthers<T>(entries: map<Long, Option<T>>, handle: Long, value: Option<T>, other: Long)
    requires other != handle
    ensures Lookup(entries[handle := value], other) == Lookup(entries, other)
  {
  }

  /** A second store under the same handle replaces the first. */
  lemma StoreReplaces<T>(entries: map<Long, Option<T>>, handle: Long, first: Option<T>, second: Option<T>)
    ensures entries[handle := first][handle := second] == entries[handle := second]
  {
  }

  /** After a delete, the handle reads `null` and every other handle reads as before. */
  lemma DeleteThenLookup<T>(entries: map<Long, Option<T>>, handle: Long, other: Long)
    ensures Lookup(entries - {handle}, handle).None?
    ensures other != handle ==> Lookup(entries - {handle}, other) == Lookup(entries, other)
  {
  }

  /** Deleting a handle that has no entry changes nothing. */
  lemma DeleteAbsentIsNoOp<T>(entries: map<Long, Option<T>>, handle: Long)
    requires handle !in entries
    ensures entries - {handle} == entries
  {
  }

  /** Storing `null` reads the same as deleting. */
  lemma StoreNullReadsAsAbsent<T>(entries: map<Long, Option<T>>, handle: Long, other: Long)
    ensures Lookup(entries[handle := None], other) == Lookup(entries - {handle}, other)
  {
  }

  /** One call on a cache. */
  datatype CacheOp<T> = StoreOp(handle: Long, value: Option<T>) | DeleteOp(handle: Long) | ClearOp

  /** The table after a sequence of calls, in order. */
  function Apply<T>(entries: map<Long, Option<T>>, ops: seq<CacheOp<T>>): map<Long, Option<T>>
    decreases |ops|
  {
    if |ops| == 0 then entries
    else
      var next := match ops[0]
        case StoreOp(h, v) => entries[h := v]
        case DeleteOp(h) => entries - {h}
        case ClearOp => map[];
      Apply(next, ops[1..])
  }

  /** What the last call touching `handle` did to it. */
  datatype LastTouch<T> = Untouched | Stored(value: Option<T>) | Removed

  /** The last call in `ops` that touches `handle`: a store under it, a delete of it, or a clear. */
  function LastTouchOf<T>(ops: seq<CacheOp<T>>, handle: Long): LastTouch<T>
    decreases |ops|
  {
    if |ops| == 0 then Untouched
    else
      var last := ops[|ops| - 1];
      if last.StoreOp? && last.handle == handle then Stored(last.value)
      else if (last.DeleteOp? && last.handle == handle) || last.ClearOp? then Removed
      else LastTouchOf(ops[..|ops| - 1], handle)
  }

  /** `Apply` of a sequence followed by one more call. */
  lemma {:induction false} ApplySnoc<T>(entries: map<Long, Option<T>>, ops: seq<CacheOp<T>>, op: CacheOp<T>)
    ensures Apply(entries, ops + [op]) == Apply(Apply(entries, ops), [op])
    decreases |ops|
  {
    if |ops| == 0 {
      assert ops + [op] == [op];
    } else {
      var next := match ops[0]
        case StoreOp(h, v) => entries[h := v]
        case DeleteOp(h) => entries - {h}
        case ClearOp => map[];
      assert (ops + [op])[1..] == ops[1..] + [op];
      ApplySnoc(next, ops[1..], op);
    }
  }

  /**
   * After any sequence of calls, a lookup gives what the last call touching
   * the handle left: the value of the last store, `null` after a delete or a
   * clear, and the original entry when no call touched it.
   */
  lemma {:induction false} LookupAfterCalls<T>(entries: map<Long, Option<T>>, ops: seq<CacheOp<T>>, handle: Long)
    ensures Lookup(Apply(entries, ops), handle) ==
              match LastTouchOf(ops, handle)
              case Untouched => Lookup(entries, handle)
              case Stored(v) => v
              case Removed => None
    decreases |ops|
  {
    if |ops| > 0 {
      var prefix := ops[..|ops| - 1];
      var last := ops[|ops| - 1];
      assert ops == prefix + [last];
      ApplySnoc(entries, prefix, last);
      LookupAfterCalls(entries, prefix, handle);
    }
  }
}
