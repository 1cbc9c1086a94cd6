/**
 * The native data attached to a JS function or external value: which Java
 * objects (a callback and the two capabilities, or an external object) the
 * native side finds again in the runtime's caches, under the address of the
 * value's `Handle`. Each object is cleared once, is guarded by its
 * `alreadyCleared` flag, and is replaced by clearing the old data before
 * the new data is stored.
 */
module CallbackData {
  import opened Wrappers
  import opened JavaTypes
  import opened JSTypes
  import opened HandleCache
  import opened Jni

  /** The message a reader of cleared function data throws with. */
  const FUNCTION_DATA_CLEARED: string := "FunctionCallbackData already cleared!"

  /** The message a reader of cleared external data throws with. */
  const EXTERNAL_DATA_CLEARED: string := "ExternalData already cleared!"

  /** The native `Runtime`'s global references to the four Java caches. */
  class NativeRuntime {
    const functionCache: Cache<object>
    const typeGetterCache: Cache<object>
    const equalityCheckerCache: Cache<object>
    const externalCache: Cache<object>

    constructor (functionCache: Cache<object>, typeGetterCache: Cache<object>,
                 equalityCheckerCache: Cache<object>, externalCache: Cache<object>)
      ensures this.functionCache == functionCache && this.typeGetterCache == typeGetterCache
      ensures this.equalityCheckerCache == equalityCheckerCache && this.externalCache == externalCache
    {
      this.functionCache := functionCache;
      this.typeGetterCache := typeGetterCache;
      this.equalityCheckerCache := equalityCheckerCache;
      this.externalCache := externalCache;
    }

    /** The four caches are four objects, as `newRuntime` makes them. */
    predicate CachesDistinct() {
      functionCache != typeGetterCache && functionCache != equalityCheckerCache && functionCache != externalCache &&
      typeGetterCache != equalityCheckerCache && typeGetterCache != externalCache &&
      equalityCheckerCache != externalCache
    }
  }

  /** The three deletes that clear the callback data under `key`, in order. */
  function CallbackClearSteps(runtime: NativeRuntime, key: Long): seq<JniCall> {
    [DeleteCall(runtime.functionCache, key), DeleteCall(runtime.typeGetterCache, key),
     DeleteCall(runtime.equalityCheckerCache, key)]
  }

  /** The three stores of new callback data under `key`, in order. */
  function CallbackStoreSteps(runtime: NativeRuntime, key: Long, handler: Option<object>, typeGetter: Option<object>,
                              equalityChecker: Option<object>): seq<JniCall> {
    [StoreCall(runtime.functionCache, key, handler), StoreCall(runtime.typeGetterCache, key, typeGetter),
     StoreCall(runtime.equalityCheckerCache, key, equalityChecker)]
  }

  /** What a handle's persistent holds: nothing, an external (with its data pointer), a function with callback data, or another value. */
  datatype HeldValue =
    | NoValue
    | ExternalValue(data: ExternalData?)
    | FunctionValue(callbackData: FunctionCallbackData)
    | OtherValue

  /** The parameter of the handle's weak finalizer, if it is weak. */
  datatype WeakParameter = NotWeak | WeakExternal(external: ExternalData) | WeakCallback(callback: FunctionCallbackData)

  /** A `Handle`: a persistent V8 handle whose own address is the key of its data in the caches. */
  class Handle {
    /** `AsLong()`: the address of the handle object. */
    const address: Long
    var held: HeldValue
    var weak: WeakParameter

    constructor (address: Long)
      ensures this.address == address && held == NoValue && weak == NotWeak
    {
      this.address := address;
      held := NoValue;
      weak := NotWeak;
    }

    /** `Reset()`: the persistent is emptied, and with it its finalizer. */
    method Reset()
      modifies this
      ensures held == NoValue && weak == NotWeak
    {
      held := NoValue;
      weak := NotWeak;
    }

    /** `Set(value)`: the persistent is reset to a new, strong, value. */
    method Set(value: HeldValue)
      modifies this
      ensures held == value && weak == NotWeak
    {
      held := value;
      weak := NotWeak;
    }

    /** `SetFinalizer(parameter, callback)`: the handle becomes weak with that parameter. */
    method SetFinalizer(parameter: WeakParameter)
      modifies this
      ensures weak == parameter && held == old(held)
    {
      weak := parameter;
    }

    /**
     * `GetFinalizerParameter<ExternalData>()` (`ClearWeak`): the external
     * data parameter, or null when there is none; the handle is strong after.
     */
    method TakeExternalParameter() returns (d: ExternalData?)
      modifies this
      ensures d == (if old(weak).WeakExternal? then old(weak).external else null)
      ensures weak == NotWeak && held == old(held)
    {
      d := if weak.WeakExternal? then weak.external else null;
      weak := NotWeak;
    }

    /** `GetFinalizerParameter<FunctionCallbackData>()`, in the same way. */
    method TakeCallbackParameter() returns (d: FunctionCallbackData?)
      modifies this
      ensures d == (if old(weak).WeakCallback? then old(weak).callback else null)
      ensures weak == NotWeak && held == old(held)
    {
      d := if weak.WeakCallback? then weak.callback else null;
      weak := NotWeak;
    }
  }

  /**
   * `ExternalData`: the native data of a JS external, keyed by its handle.
   * The current class checks for a pending exception after the delete of a
   * clear and then stops, uncleared; the legacy one does not check.
   */
  class ExternalData {
    const generation: Generation
    const runtime: NativeRuntime
    /** Null for the data `initExternalValue` makes. */
    const handle: Handle?
    var alreadyCleared: bool

    /** `handle->AsLong()`: the key of this data in the external cache (0 for a null handle). */
    function Key(): Long {
      if handle == null then 0 else handle.address
    }

    constructor (generation: Generation, runtime: NativeRuntime, handle: Handle?)
      ensures this.generation == generation && this.runtime == runtime && this.handle == handle
      ensures !alreadyCleared
    {
      this.generation := generation;
      this.runtime := runtime;
      this.handle := handle;
      alreadyCleared := false;
    }

    /**
     * `clearReference`: nothing once cleared. Otherwise one delete of the
     * key from the external cache; then, unless the current class finds an
     * exception pending, the handle is reset and the data is cleared.
     */
    method ClearReference(env: JniEnv)
      requires handle != null
      modifies this, env, runtime.externalCache, handle
      ensures old(alreadyCleared) ==>
                alreadyCleared && env.calls == old(env.calls) && env.exceptionPending == old(env.exceptionPending) &&
                runtime.externalCache.entries == old(runtime.externalCache.entries) &&
                handle.held == old(handle.held) && handle.weak == old(handle.weak)
      ensures !old(alreadyCleared) ==>
                env.calls == old(env.calls) + [DeleteCall(runtime.externalCache, Key())] &&
                env.exceptionPending ==
                  (old(env.exceptionPending) || env.raises(old(env.calls), DeleteCall(runtime.externalCache, Key()))) &&
                runtime.externalCache.entries == old(runtime.externalCache.entries) - {Key()}
      ensures !old(alreadyCleared) && (generation == Legacy || !env.exceptionPending) ==>
                alreadyCleared && handle.held == NoValue && handle.weak == NotWeak
      ensures !old(alreadyCleared) && generation == Current && env.exceptionPending ==>
                !alreadyCleared && handle.held == old(handle.held) && handle.weak == old(handle.weak)
    {
      if alreadyCleared {
        return;
      }
      env.CacheDelete(runtime.externalCache, Key());
      if generation == Current && env.exceptionPending {
        return;
      }
      handle.Reset();
      alreadyCleared := true;
    }

    /** `storeInCache(external)`: nothing once cleared; otherwise one store under the key. */
    method StoreInCache(env: JniEnv, external: Option<object>)
      modifies env, runtime.externalCache
      ensures alreadyCleared ==>
                env.calls == old(env.calls) && env.exceptionPending == old(env.exceptionPending) &&
                runtime.externalCache.entries == old(runtime.externalCache.entries)
      ensures !alreadyCleared ==>
                env.calls == old(env.calls) + [StoreCall(runtime.externalCache, Key(), external)] &&
                env.exceptionPending ==
                  (old(env.exceptionPending) || env.raises(old(env.calls), StoreCall(runtime.externalCache, Key(), external))) &&
                runtime.externalCache.entries == old(runtime.externalCache.entries)[Key() := external]
    {
      if alreadyCleared {
        return;
      }
      env.CacheStore(runtime.externalCache, Key(), external);
    }

    /** `externalFromCache`: throws once cleared; otherwise one lookup of the key. */
    method ExternalFromCache(env: JniEnv) returns (r: Result<Option<object>, Exception>)
      modifies env
      ensures alreadyCleared ==>
                r == Err(NativeRuntimeError(EXTERNAL_DATA_CLEARED)) &&
                env.calls == old(env.calls) && env.exceptionPending == old(env.exceptionPending)
      ensures !alreadyCleared ==>
                r == Ok(Lookup(runtime.externalCache.entries, Key())) &&
                env.calls == old(env.calls) + [GetCall(runtime.externalCache, Key())] &&
                env.exceptionPending ==
                  (old(env.exceptionPending) || env.raises(old(env.calls), GetCall(runtime.externalCache, Key())))
    {
      if alreadyCleared {
        return Err(NativeRuntimeError(EXTERNAL_DATA_CLEARED));
      }
      var value := env.CacheGet(runtime.externalCache, Key());
      r := Ok(value);
    }
  }

  /**
   * `FunctionCallbackData`: the native data of a JS function backed by a
   * Java callback, keyed by its handle in three caches. The current class
   * checks for a pending exception after every cache call and stops there;
   * the legacy one makes all three calls and does not reset the handle.
   */
  class FunctionCallbackData {
    const generation: Generation
    const runtime: NativeRuntime
    const handle: Handle
    var alreadyCleared: bool

    /** `handle->AsLong()`: the key of this data in the three caches. */
    function Key(): Long {
      handle.address
    }

    /** The three deletes of a clear, in order. */
    function ClearSteps(): seq<JniCall> {
      CallbackClearSteps(runtime, Key())
    }

    /** The three stores of `storeInCache`, in order. */
    function StoreSteps(handler: Option<object>, typeGetter: Option<object>, equalityChecker: Option<object>): seq<JniCall> {
      CallbackStoreSteps(runtime, Key(), handler, typeGetter, equalityChecker)
    }

    constructor (generation: Generation, runtime: NativeRuntime, handle: Handle)
      ensures this.generation == generation && this.runtime == runtime && this.handle == handle
      ensures !alreadyCleared
    {
      this.generation := generation;
      this.runtime := runtime;
      this.handle := handle;
      alreadyCleared := false;
    }

    /**
     * `clearReference`: nothing once cleared. Otherwise the key is deleted
     * from the function, type-getter and equality-checker caches, in that
     * order; the current class stops at the first pending exception and,
     * when none is pending, resets the handle and becomes cleared; the
     * legacy class makes the three deletes and becomes cleared.
     */
    method ClearReference(env: JniEnv)
      requires runtime.CachesDistinct()
      modifies this, env, runtime.functionCache, runtime.typeGetterCache, runtime.equalityCheckerCache, handle
      ensures old(alreadyCleared) ==>
                alreadyCleared && env.calls == old(env.calls) && env.exceptionPending == old(env.exceptionPending) &&
                runtime.functionCache.entries == old(runtime.functionCache.entries) &&
                runtime.typeGetterCache.entries == old(runtime.typeGetterCache.entries) &&
                runtime.equalityCheckerCache.entries == old(runtime.equalityCheckerCache.entries) &&
                handle.held == old(handle.held) && handle.weak == old(handle.weak)
      ensures !old(alreadyCleared) && generation == Current ==>
                var done := Checked(env.raises, old(env.exceptionPending), old(env.calls), ClearSteps());
                env.calls == old(env.calls) + done &&
                env.exceptionPending == PendingAfter(env.raises, old(env.exceptionPending), old(env.calls), done) &&
                runtime.functionCache.entries == old(runtime.functionCache.entries) - {Key()} &&
                runtime.typeGetterCache.entries ==
                  (if |done| >= 2 then old(runtime.typeGetterCache.entries) - {Key()} else old(runtime.typeGetterCache.entries)) &&
                runtime.equalityCheckerCache.entries ==
                  (if |done| == 3 then old(runtime.equalityCheckerCache.entries) - {Key()}
                   else old(runtime.equalityCheckerCache.entries)) &&
                alreadyCleared == !env.exceptionPending &&
                (if alreadyCleared then handle.held == NoValue && handle.weak == NotWeak
                 else handle.held == old(handle.held) && handle.weak == old(handle.weak))
      ensures !old(alreadyCleared) && generation == Legacy ==>
                env.calls == old(env.calls) + ClearSteps() &&
                env.exceptionPending == PendingAfter(env.raises, old(env.exceptionPending), old(env.calls), ClearSteps()) &&
                runtime.functionCache.entries == old(runtime.functionCache.entries) - {Key()} &&
                runtime.typeGetterCache.entries == old(runtime.typeGetterCache.entries) - {Key()} &&
                runtime.equalityCheckerCache.entries == old(runtime.equalityCheckerCache.entries) - {Key()} &&
                alreadyCleared && handle.held == old(handle.held) && handle.weak == old(handle.weak)
    {
      if alreadyCleared {
        return;
      }
      var steps := ClearSteps();
      ghost var history := env.calls;
      ghost var pending := env.exceptionPending;
      PendingAfterThree(env.raises, pending, history, steps[0], steps[1], steps[2]);
      CheckedThree(env.raises, pending, history, steps[0], steps[1], steps[2]);
      env.CacheDelete(runtime.functionCache, Key());
      if generation == Current && env.exceptionPending {
        return;
      }
      env.CacheDelete(runtime.typeGetterCache, Key());
      if generation == Current && env.exceptionPending {
        return;
      }
      env.CacheDelete(runtime.equalityCheckerCache, Key());
      if generation == Current && env.exceptionPending {
        return;
      }
      if generation == Current {
        handle.Reset();
      }
      alreadyCleared := true;
    }

    /**
     * `storeInCache(handler, typeGetter, equalityChecker)`: nothing once
     * cleared. Otherwise the three objects are stored under the key in the
     * function, type-getter and equality-checker caches, in that order; the
     * current class stops at the first pending exception. The flag is never
     * changed.
     */
    method StoreInCache(env: JniEnv, handler: Option<object>, typeGetter: Option<object>, equalityChecker: Option<object>)
      requires runtime.CachesDistinct()
      modifies env, runtime.functionCache, runtime.typeGetterCache, runtime.equalityCheckerCache
      ensures alreadyCleared ==>
                env.calls == old(env.calls) && env.exceptionPending == old(env.exceptionPending) &&
                runtime.functionCache.entries == old(runtime.functionCache.entries) &&
                runtime.typeGetterCache.entries == old(runtime.typeGetterCache.entries) &&
                runtime.equalityCheckerCache.entries == old(runtime.equalityCheckerCache.entries)
      ensures !alreadyCleared ==>
                var steps := StoreSteps(handler, typeGetter, equalityChecker);
                var done := if generation == Current then Checked(env.raises, old(env.exceptionPending), old(env.calls), steps)
                            else steps;
                env.calls == old(env.calls) + done &&
                env.exceptionPending == PendingAfter(env.raises, old(env.exceptionPending), old(env.calls), done) &&
                runtime.functionCache.entries == old(runtime.functionCache.entries)[Key() := handler] &&
                runtime.typeGetterCache.entries ==
                  (if |done| >= 2 then old(runtime.typeGetterCache.entries)[Key() := typeGetter]
                   else old(runtime.typeGetterCache.entries)) &&
                runtime.equalityCheckerCache.entries ==
                  (if |done| == 3 then old(runtime.equalityCheckerCache.entries)[Key() := equalityChecker]
                   else old(runtime.equalityCheckerCache.entries))
    {
      if alreadyCleared {
        return;
      }
      var steps := StoreSteps(handler, typeGetter, equalityChecker);
      ghost var history := env.calls;
      ghost var pending := env.exceptionPending;
      PendingAfterThree(env.raises, pending, history, steps[0], steps[1], steps[2]);
      CheckedThree(env.raises, pending, history, steps[0], steps[1], steps[2]);
      env.CacheStore(runtime.functionCache, Key(), handler);
      if generation == Current && env.exceptionPending {
        return;
      }
      env.CacheStore(runtime.typeGetterCache, Key(), typeGetter);
      if generation == Current && env.exceptionPending {
        return;
      }
      env.CacheStore(runtime.equalityCheckerCache, Key(), equalityChecker);
    }

    /** A reader: throws once cleared; otherwise one lookup of the key in `cache`. */
    method FromCache(env: JniEnv, cache: Cache<object>) returns (r: Result<Option<object>, Exception>)
      modifies env
      ensures alreadyCleared ==>
                r == Err(NativeRuntimeError(FUNCTION_DATA_CLEARED)) &&
                env.calls == old(env.calls) && env.exceptionPending == old(env.exceptionPending)
      ensures !alreadyCleared ==>
                r == Ok(Lookup(cache.entries, Key())) &&
                env.calls == old(env.calls) + [GetCall(cache, Key())] &&
                env.exceptionPending == (old(env.exceptionPending) || env.raises(old(env.calls), GetCall(cache, Key())))
    {
      if alreadyCleared {
        return Err(NativeRuntimeError(FUNCTION_DATA_CLEARED));
      }
      var value := env.CacheGet(cache, Key());
      r := Ok(value);
    }

    /** `callbackFromCache`: the function cache's entry for the key. */
    method CallbackFromCache(env: JniEnv) returns (r: Result<Option<object>, Exception>)
      modifies env
      ensures alreadyCleared ==>
                r == Err(NativeRuntimeError(FUNCTION_DATA_CLEARED)) &&
                env.calls == old(env.calls) && env.exceptionPending == old(env.exceptionPending)
      ensures !alreadyCleared ==>
                r == Ok(Lookup(runtime.functionCache.entries, Key())) &&
                env.calls == old(env.calls) + [GetCall(runtime.functionCache, Key())] &&
                env.exceptionPending == (old(env.exceptionPending) || env.raises(old(env.calls), GetCall(runtime.functionCache, Key())))
    {
      r := FromCache(env, runtime.functionCache);
    }

    /** `typeGetterFromCache`: the type-getter cache's entry for the key. */
    method TypeGetterFromCache(env: JniEnv) returns (r: Result<Option<object>, Exception>)
      modifies env
      ensures alreadyCleared ==>
                r == Err(NativeRuntimeError(FUNCTION_DATA_CLEARED)) &&
                env.calls == old(env.calls) && env.exceptionPending == old(env.exceptionPending)
      ensures !alreadyCleared ==>
                r == Ok(Lookup(runtime.typeGetterCache.entries, Key())) &&
                env.calls == old(env.calls) + [GetCall(runtime.typeGetterCache, Key())] &&
                env.exceptionPending == (old(env.exceptionPending) || env.raises(old(env.calls), GetCall(runtime.typeGetterCache, Key())))
    {
      r := FromCache(env, runtime.typeGetterCache);
    }

    /** `equalityCheckerFromCache`: the equality-checker cache's entry for the key. */
    method EqualityCheckerFromCache(env: JniEnv) returns (r: Result<Option<object>, Exception>)
      modifies env
      ensures alreadyCleared ==>
                r == Err(NativeRuntimeError(FUNCTION_DATA_CLEARED)) &&
                env.calls == old(env.calls) && env.exceptionPending == old(env.exceptionPending)
      ensures !alreadyCleared ==>
                r == Ok(Lookup(runtime.equalityCheckerCache.entries, Key())) &&
                env.calls == old(env.calls) + [GetCall(runtime.equalityCheckerCache, Key())] &&
                env.exceptionPending == (old(env.exceptionPending) || env.raises(old(env.calls), GetCall(runtime.equalityCheckerCache, Key())))
    {
      r := FromCache(env, runtime.equalityCheckerCache);
    }
  }

  /**
   * `setExternalValue(runtimeHandle, referenceHandle, value)`: the old
   * external data, if the handle has one, is cleared (one delete of the key)
   * and freed; then new data is made, stores the value under the key, and
   * becomes both the handle's external value and its finalizer's parameter.
   */
  method SetExternalValue(generation: Generation, env: JniEnv, runtime: NativeRuntime, handle: Handle,
                          value: Option<object>)
    requires handle.weak.WeakExternal? ==>
               handle.weak.external.runtime == runtime && handle.weak.external.handle == handle &&
               handle.weak.external.generation == generation
    modifies env, handle, runtime.externalCache, if handle.weak.WeakExternal? then {handle.weak.external} else {}
    ensures handle.held.ExternalValue? && handle.held.data != null && fresh(handle.held.data)
    ensures handle.weak == WeakExternal(handle.held.data)
    ensures handle.held.data.generation == generation && handle.held.data.runtime == runtime &&
            handle.held.data.handle == handle && !handle.held.data.alreadyCleared
    ensures var clearing := old(handle.weak).WeakExternal? && !old(handle.weak.external.alreadyCleared);
            var done := (if clearing then [DeleteCall(runtime.externalCache, handle.address)] else []) +
                        [StoreCall(runtime.externalCache, handle.address, value)];
            env.calls == old(env.calls) + done &&
            env.exceptionPending == PendingAfter(env.raises, old(env.exceptionPending), old(env.calls), done)
    ensures runtime.externalCache.entries == old(runtime.externalCache.entries)[handle.address := value]
  {
    ghost var history := env.calls;
    ghost var pending := env.exceptionPending;
    ghost var entries := runtime.externalCache.entries;
    var oldData := handle.TakeExternalParameter();
    if oldData != null {
      oldData.ClearReference(env);
    }
    ghost var cleared := env.calls[|history|..];
    var data := new ExternalData(generation, runtime, handle);
    data.StoreInCache(env, value);
    handle.Set(ExternalValue(data));
    handle.SetFinalizer(WeakExternal(data));
    ghost var store := StoreCall(runtime.externalCache, handle.address, value);
    PendingAfterThree(env.raises, pending, history, DeleteCall(runtime.externalCache, handle.address), store, store);
    if cleared == [] {
      assert env.calls == history + [store];
    } else {
      assert runtime.externalCache.entries == (entries - {handle.address})[handle.address := value];
    }
  }

  /**
   * `getExternalValue(runtimeHandle, referenceHandle)` on a handle that
   * holds an external: `null` for an external without data; otherwise the
   * data's cache entry, which throws once the data is cleared; the current
   * code answers `null` instead when the lookup leaves an exception pending.
   */
  method GetExternalValue(generation: Generation, env: JniEnv, handle: Handle) returns (r: Result<Option<object>, Exception>)
    requires handle.held.ExternalValue?
    modifies env
    ensures handle.held.data == null ==> r == Ok(None) && env.calls == old(env.calls)
    ensures handle.held.data != null && handle.held.data.alreadyCleared ==>
              r == Err(NativeRuntimeError(EXTERNAL_DATA_CLEARED)) && env.calls == old(env.calls)
    ensures handle.held.data != null && !handle.held.data.alreadyCleared ==>
              var data := handle.held.data;
              env.calls == old(env.calls) + [GetCall(data.runtime.externalCache, data.Key())] &&
              r == (if generation == Current && env.exceptionPending then Ok(None)
                    else Ok(Lookup(data.runtime.externalCache.entries, data.Key())))
  {
    var data := handle.held.data;
    if data == null {
      return Ok(None);
    }
    r := data.ExternalFromCache(env);
    if r.Ok? && generation == Current && env.exceptionPending {
      r := Ok(None);
    }
  }

  /**
   * Setting an external value and reading it back gives the new value: in
   * the legacy code always, in the current code unless an exception is
   * pending after the read.
   */
  method SetThenGetExternal(generation: Generation, env: JniEnv, runtime: NativeRuntime, handle: Handle,
                            value: Option<object>)
    returns (r: Result<Option<object>, Exception>)
    requires handle.weak.WeakExternal? ==>
               handle.weak.external.runtime == runtime && handle.weak.external.handle == handle &&
               handle.weak.external.generation == generation
    modifies env, handle, runtime.externalCache, if handle.weak.WeakExternal? then {handle.weak.external} else {}
    ensures generation == Legacy || !env.exceptionPending ==> r == Ok(value)
    ensures generation == Current && env.exceptionPending ==> r == Ok(None)
  {
    SetExternalValue(generation, env, runtime, handle, value);
    r := GetExternalValue(generation, env, handle);
  }

  /** The calls a run of `steps` makes: checked in the current code, all of them in the legacy code. */
  function RunOf(generation: Generation, raises: (seq<JniCall>, JniCall) -> bool, pending: bool, history: seq<JniCall>,
                 steps: seq<JniCall>): seq<JniCall> {
    if generation == Current then Checked(raises, pending, history, steps) else steps
  }

  /**
   * The first half of `setFunctionHandler`: the old callback data of the
   * handle, if it has any, is taken off the finalizer and cleared. Each
   * cache then has lost at most the handle's key.
   */
  method ClearOldCallbackData(generation: Generation, env: JniEnv, runtime: NativeRuntime, handle: Handle)
    requires runtime.CachesDistinct()
    requires handle.weak.WeakCallback? ==>
               handle.weak.callback.runtime == runtime && handle.weak.callback.handle == handle &&
               handle.weak.callback.generation == generation
    modifies env, handle, runtime.functionCache, runtime.typeGetterCache, runtime.equalityCheckerCache,
             if handle.weak.WeakCallback? then {handle.weak.callback} else {}
    ensures var clearing := old(handle.weak).WeakCallback? && !old(handle.weak.callback.alreadyCleared);
            var cleared := if clearing
                           then RunOf(generation, env.raises, old(env.exceptionPending), old(env.calls), CallbackClearSteps(runtime, handle.address))
                           else [];
            env.calls == old(env.calls) + cleared &&
            env.exceptionPending == PendingAfter(env.raises, old(env.exceptionPending), old(env.calls), cleared)
    ensures runtime.functionCache.entries in {old(runtime.functionCache.entries), old(runtime.functionCache.entries) - {handle.address}}
    ensures runtime.typeGetterCache.entries in
              {old(runtime.typeGetterCache.entries), old(runtime.typeGetterCache.entries) - {handle.address}}
    ensures runtime.equalityCheckerCache.entries in
              {old(runtime.equalityCheckerCache.entries), old(runtime.equalityCheckerCache.entries) - {handle.address}}
  {
    var oldData := handle.TakeCallbackParameter();
    if oldData != null {
      oldData.ClearReference(env);
    }
  }

  /** Storing over a deleted key is storing over the original table. */
  lemma StoreAfterDelete(entries: map<Long, Option<object>>, key: Long, value: Option<object>)
    ensures (entries - {key})[key := value] == entries[key := value]
  {
  }

  /**
   * `setFunctionHandler(runtimeHandle, referenceHandle, handler, typeGetter,
   * equalityChecker)`: the old callback data, if the handle has one, is
   * cleared (its deletes) and freed; then new data is made, stores the three
   * objects (its stores), and becomes the parameter of the finalizer of the
   * new function the handle holds.
   */
  method SetFunctionHandler(generation: Generation, env: JniEnv, runtime: NativeRuntime, handle: Handle,
                            handler: Option<object>, typeGetter: Option<object>, equalityChecker: Option<object>)
    requires runtime.CachesDistinct()
    requires handle.weak.WeakCallback? ==>
               handle.weak.callback.runtime == runtime && handle.weak.callback.handle == handle &&
               handle.weak.callback.generation == generation
    modifies env, handle, runtime.functionCache, runtime.typeGetterCache, runtime.equalityCheckerCache,
             if handle.weak.WeakCallback? then {handle.weak.callback} else {}
    ensures handle.held.FunctionValue? && fresh(handle.held.callbackData)
    ensures handle.weak == WeakCallback(handle.held.callbackData)
    ensures handle.held.callbackData.generation == generation && handle.held.callbackData.runtime == runtime &&
            handle.held.callbackData.handle == handle && !handle.held.callbackData.alreadyCleared
    ensures var clearing := old(handle.weak).WeakCallback? && !old(handle.weak.callback.alreadyCleared);
            var cleared := if clearing
                           then RunOf(generation, env.raises, old(env.exceptionPending), old(env.calls), CallbackClearSteps(runtime, handle.address))
                           else [];
            var stored := RunOf(generation, env.raises,
                                PendingAfter(env.raises, old(env.exceptionPending), old(env.calls), cleared),
                                old(env.calls) + cleared,
                                CallbackStoreSteps(runtime, handle.address, handler, typeGetter, equalityChecker));
            env.calls == old(env.calls) + cleared + stored &&
            env.exceptionPending == PendingAfter(env.raises, old(env.exceptionPending), old(env.calls), cleared + stored)
    ensures generation == Legacy || !env.exceptionPending ==>
              runtime.functionCache.entries == old(runtime.functionCache.entries)[handle.address := handler] &&
              runtime.typeGetterCache.entries == old(runtime.typeGetterCache.entries)[handle.address := typeGetter] &&
              runtime.equalityCheckerCache.entries == old(runtime.equalityCheckerCache.entries)[handle.address := equalityChecker]
    ensures runtime.functionCache.entries == old(runtime.functionCache.entries)[handle.address := handler]
    ensures runtime.typeGetterCache.entries in
              {old(runtime.typeGetterCache.entries), old(runtime.typeGetterCache.entries) - {handle.address},
               old(runtime.typeGetterCache.entries)[handle.address := typeGetter]}
    ensures runtime.equalityCheckerCache.entries in
              {old(runtime.equalityCheckerCache.entries), old(runtime.equalityCheckerCache.entries) - {handle.address},
               old(runtime.equalityCheckerCache.entries)[handle.address := equalityChecker]}
  {
    ClearOldCallbackData(generation, env, runtime, handle);
    ghost var afterClear := env.calls;
    ghost var pendingAfterClear := env.exceptionPending;
    var data := new FunctionCallbackData(generation, runtime, handle);
    data.StoreInCache(env, handler, typeGetter, equalityChecker);
    handle.Set(FunctionValue(data));
    handle.SetFinalizer(WeakCallback(data));
    ghost var stored := env.calls[|afterClear|..];
    assert env.calls == afterClear + stored;
    PendingAfterAppend(env.raises, old(env.exceptionPending), old(env.calls), afterClear[|old(env.calls)|..], stored);
    if generation == Current && !env.exceptionPending {
      CheckedStopsOnException(env.raises, pendingAfterClear, afterClear,
                              CallbackStoreSteps(runtime, handle.address, handler, typeGetter, equalityChecker));
    }
    StoreAfterDelete(old(runtime.functionCache.entries), handle.address, handler);
    StoreAfterDelete(old(runtime.typeGetterCache.entries), handle.address, typeGetter);
    StoreAfterDelete(old(runtime.equalityCheckerCache.entries), handle.address, equalityChecker);
  }

  /**
   * Setting a function handler and reading the three objects back through
   * the new callback data gives the handler and the two capabilities: in the
   * legacy code always, in the current code unless an exception is pending
   * at the end.
   */
  method SetThenGetCallback(generation: Generation, env: JniEnv, runtime: NativeRuntime, handle: Handle,
                            handler: Option<object>, typeGetter: Option<object>, equalityChecker: Option<object>)
    returns (callback: Result<Option<object>, Exception>, getter: Result<Option<object>, Exception>,
             checker: Result<Option<object>, Exception>)
    requires runtime.CachesDistinct()
    requires handle.weak.WeakCallback? ==>
               handle.weak.callback.runtime == runtime && handle.weak.callback.handle == handle &&
               handle.weak.callback.generation == generation
    modifies env, handle, runtime.functionCache, runtime.typeGetterCache, runtime.equalityCheckerCache,
             if handle.weak.WeakCallback? then {handle.weak.callback} else {}
    ensures generation == Legacy || !env.exceptionPending ==>
              callback == Ok(handler) && getter == Ok(typeGetter) && checker == Ok(equalityChecker)
  {
    SetFunctionHandler(generation, env, runtime, handle, handler, typeGetter, equalityChecker);
    var data := handle.held.callbackData;
    callback := data.CallbackFromCache(env);
    getter := data.TypeGetterFromCache(env);
    checker := data.EqualityCheckerFromCache(env);
  }
}
