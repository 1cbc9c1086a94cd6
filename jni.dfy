/**
 * The JNI side of the native callback data: the calls the native code makes
 * on the Java caches through `JNIEnv`, and the pending-exception flag it
 * checks with `ExceptionCheck()`.
 */
module Jni {
  import opened Wrappers
  import opened JavaTypes
  import opened HandleCache

  /** One `Call*Method` on a cache object: `store`, `get` or `delete` under a key. */
  datatype JniCall =
    | StoreCall(cache: Cache<object>, key: Long, value: Option<object>)
    | GetCall(cache: Cache<object>, key: Long)
    | DeleteCall(cache: Cache<object>, key: Long)

  /**
   * A `JNIEnv`: the calls made through it, in order, and whether a Java
   * exception is pending. Whether a call raises is the JVM's business, so
   * `raises` is an oracle of the calls before it; a call that raises still
   * has its effect on the cache, and the exception stays pending.
   */
  class JniEnv {
    const raises: (seq<JniCall>, JniCall) -> bool
    var calls: seq<JniCall>
    var exceptionPending: bool

    constructor (raises: (seq<JniCall>, JniCall) -> bool)
      ensures this.raises == raises
      ensures calls == [] && !exceptionPending
    {
      this.raises := raises;
      calls := [];
      exceptionPending := false;
    }

    /** `CallVoidMethod(cache, cacheStore, key, value)`. */
    method CacheStore(cache: Cache<object>, key: Long, value: Option<object>)
      modifies this, cache
      ensures cache.entries == old(cache.entries)[key := value]
      ensures calls == old(calls) + [StoreCall(cache, key, value)]
      ensures exceptionPending == (old(exceptionPending) || raises(old(calls), StoreCall(cache, key, value)))
    {
      cache.Store(key, value);
      exceptionPending := exceptionPending || raises(calls, StoreCall(cache, key, value));
      calls := calls + [StoreCall(cache, key, value)];
    }

    /** `CallObjectMethod(cache, cacheGet, key)`. */
    method CacheGet(cache: Cache<object>, key: Long) returns (value: Option<object>)
      modifies this
      ensures value == Lookup(cache.entries, key)
      ensures calls == old(calls) + [GetCall(cache, key)]
      ensures exceptionPending == (old(exceptionPending) || raises(old(calls), GetCall(cache, key)))
    {
      value := cache.Get(key);
      exceptionPending := exceptionPending || raises(calls, GetCall(cache, key));
      calls := calls + [GetCall(cache, key)];
    }

    /** `CallVoidMethod(cache, cacheDelete, key)`. */
    method CacheDelete(cache: Cache<object>, key: Long)
      modifies this, cache
      ensures cache.entries == old(cache.entries) - {key}
      ensures calls == old(calls) + [DeleteCall(cache, key)]
      ensures exceptionPending == (old(exceptionPending) || raises(old(calls), DeleteCall(cache, key)))
    {
      cache.Delete(key);
      exceptionPending := exceptionPending || raises(calls, DeleteCall(cache, key));
      calls := calls + [DeleteCall(cache, key)];
    }
  }

  /** Whether an exception is pending after `calls`, starting from `pending` after `history`. */
  function PendingAfter(raises: (seq<JniCall>, JniCall) -> bool, pending: bool, history: seq<JniCall>,
                        calls: seq<JniCall>): bool
    decreases |calls|
  {
    if |calls| == 0 then pending
    else PendingAfter(raises, pending || raises(history, calls[0]), history + [calls[0]], calls[1..])
  }

  /**
   * The calls a sequence of steps makes when `ExceptionCheck()` follows each
   * one and a pending exception ends the sequence: every step up to and
   * including the first one after which an exception is pending.
   */
  function Checked(raises: (seq<JniCall>, JniCall) -> bool, pending: bool, history: seq<JniCall>,
                   steps: seq<JniCall>): (done: seq<JniCall>)
    ensures |done| <= |steps| && done == steps[..|done|]
    ensures |steps| > 0 ==> |done| > 0
    decreases |steps|
  {
    if |steps| == 0 then []
    else if pending || raises(history, steps[0]) then [steps[0]]
    else [steps[0]] + Checked(raises, false, history + [steps[0]], steps[1..])
  }

  /** A checked sequence stops early only on a pending exception. */
  lemma {:induction false} CheckedStopsOnException(raises: (seq<JniCall>, JniCall) -> bool, pending: bool,
                                                   history: seq<JniCall>, steps: seq<JniCall>)
    ensures Checked(raises, pending, history, steps) == steps ||
            PendingAfter(raises, pending, history, Checked(raises, pending, history, steps))
    decreases |steps|
  {
    if |steps| > 0 && !(pending || raises(history, steps[0])) {
      var done := Checked(raises, pending, history, steps);
      var rest := Checked(raises, false, history + [steps[0]], steps[1..]);
      CheckedStopsOnException(raises, false, history + [steps[0]], steps[1..]);
      assert done == [steps[0]] + rest;
      assert done[1..] == rest;
      if rest == steps[1..] {
        assert done == steps;
      }
    }
  }

  /** When the whole sequence raises nothing, the checks change nothing: every step runs. */
  lemma {:induction false} CheckedWithoutException(raises: (seq<JniCall>, JniCall) -> bool, pending: bool,
                                                   history: seq<JniCall>, steps: seq<JniCall>)
    requires !PendingAfter(raises, pending, history, steps)
    ensures Checked(raises, pending, history, steps) == steps
    decreases |steps|
  {
    if |steps| > 0 {
      PendingStays(raises, pending || raises(history, steps[0]), history + [steps[0]], steps[1..]);
      CheckedWithoutException(raises, false, history + [steps[0]], steps[1..]);
      assert steps == [steps[0]] + steps[1..];
    }
  }

  /** Once pending, an exception stays pending. */
  lemma {:induction false} PendingStays(raises: (seq<JniCall>, JniCall) -> bool, pending: bool,
                                        history: seq<JniCall>, calls: seq<JniCall>)
    ensures pending ==> PendingAfter(raises, pending, history, calls)
    decreases |calls|
  {
    if |calls| > 0 {
      PendingStays(raises, pending || raises(history, calls[0]), history + [calls[0]], calls[1..]);
    }
  }

  /** The pending flag after one, two or three calls: pending before, or raised by one of them. */
  lemma PendingAfterThree(raises: (seq<JniCall>, JniCall) -> bool, pending: bool, history: seq<JniCall>,
                          a: JniCall, b: JniCall, c: JniCall)
    ensures PendingAfter(raises, pending, history, [a]) == (pending || raises(history, a))
    ensures PendingAfter(raises, pending, history, [a, b]) ==
              (pending || raises(history, a) || raises(history + [a], b))
    ensures PendingAfter(raises, pending, history, [a, b, c]) ==
              (pending || raises(history, a) || raises(history + [a], b) || raises(history + [a] + [b], c))
  {
    var p1 := pending || raises(history, a);
    var p2 := p1 || raises(history + [a], b);
    var p3 := p2 || raises(history + [a] + [b], c);
    assert [a, b, c][1..] == [b, c];
    assert [b, c][1..] == [c];
    assert [c][1..] == [];
    assert PendingAfter(raises, p2, history + [a] + [b], [c]) == p3;
    assert PendingAfter(raises, p1, history + [a], [b, c]) == p3;
    assert [a][1..] == [];
    assert [a, b][1..] == [b];
    assert PendingAfter(raises, p1, history + [a], [b]) == p2;
  }

  /** A checked run of three calls: it stops after the first that leaves an exception pending. */
  lemma CheckedThree(raises: (seq<JniCall>, JniCall) -> bool, pending: bool, history: seq<JniCall>,
                     a: JniCall, b: JniCall, c: JniCall)
    ensures Checked(raises, pending, history, [a, b, c]) ==
              if pending || raises(history, a) then [a]
              else if raises(history + [a], b) then [a, b]
              else [a, b, c]
  {
    assert [a, b, c][1..] == [b, c];
    assert [b, c][1..] == [c];
    assert [c][1..] == [];
    if !(pending || raises(history, a)) && !raises(history + [a], b) {
      assert Checked(raises, false, history + [a] + [b], [c]) == [c];
      assert Checked(raises, false, history + [a], [b, c]) == [b, c];
    }
  }

  /** The pending flag after two runs of calls is the flag after the second, started from the flag after the first. */
  lemma {:induction false} PendingAfterAppend(raises: (seq<JniCall>, JniCall) -> bool, pending: bool, history: seq<JniCall>,
                                              first: seq<JniCall>, second: seq<JniCall>)
    ensures PendingAfter(raises, pending, history, first + second) ==
              PendingAfter(raises, PendingAfter(raises, pending, history, first), history + first, second)
    decreases |first|
  {
    if |first| == 0 {
      assert first + second == second;
      assert history + first == history;
    } else {
      assert (first + second)[0] == first[0];
      assert (first + second)[1..] == first[1..] + second;
      assert history + [first[0]] + first[1..] == history + first;
      PendingAfterAppend(raises, pending || raises(history, first[0]), history + [first[0]], first[1..], second);
    }
  }
}
