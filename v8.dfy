/**
 * The Java `V8` class: the memoised singleton over the native library and
 * `track`, which the native side calls for every reference it hands out.
 */
module V8Bridge {
  import opened Wrappers
  import opened JavaTypes
  import opened JSTypes
  import opened Environment
  import opened Boundary
  import opened References
  import opened Monitor

  /** The ICU data file whose path the current generation initialises V8 with. */
  const ICU_DATA_FILE: string := "icudtl.dat"

  /** An instance of class `V8`: a handle on the loaded native library. */
  class V8 {
    const natives: Natives

    constructor (natives: Natives)
      ensures this.natives == natives
    {
      this.natives := natives;
    }
  }

  /**
   * The static state of class `V8`: the loaded library and the `instance`
   * field. Where the resource file lies on disk is the native library
   * loader's business, so `locate` is a parameter.
   */
  class V8Static {
    const generation: Generation
    const natives: Natives
    var instance: V8?

    /** The cached instance, once there is one, is over this library. */
    ghost predicate Valid()
      reads this
    {
      instance != null ==> instance.natives == natives
    }

    constructor (generation: Generation, natives: Natives)
      ensures this.generation == generation && this.natives == natives
      ensures instance == null
      ensures Valid()
    {
      this.generation := generation;
      this.natives := natives;
      instance := null;
    }

    /**
     * `getInstance()`: the cached instance once there is one. Otherwise the
     * current generation calls `initializeV8` with the ICU data path and, on
     * a false answer, throws without caching anything, so the next call
     * tries again; on success, and always in the legacy generation, a new
     * instance is cached and returned.
     */
    method GetInstance(locate: string -> string) returns (r: Result<V8, Exception>)
      requires Valid()
      modifies this, natives
      ensures Valid()
      ensures r.Ok? ==> r.value.natives == natives && instance == r.value
      ensures old(instance) != null ==>
                r.Ok? && r.value == old(instance) && instance == old(instance) && natives.calls == old(natives.calls)
      ensures old(instance) == null && generation == Legacy ==>
                r.Ok? && fresh(r.value) && r.value.natives == natives && instance == r.value &&
                natives.calls == old(natives.calls)
      ensures old(instance) == null && generation == Current ==>
                natives.calls == old(natives.calls) + [InitializeV8(locate(ICU_DATA_FILE))]
      ensures old(instance) == null && generation == Current &&
              natives.oracle.flags(old(natives.calls), InitializeV8(locate(ICU_DATA_FILE))) ==>
                r.Ok? && fresh(r.value) && r.value.natives == natives && instance == r.value
      ensures old(instance) == null && generation == Current &&
              !natives.oracle.flags(old(natives.calls), InitializeV8(locate(ICU_DATA_FILE))) ==>
                r == Err(RuntimeException("Cannot initialize V8 with " + locate(ICU_DATA_FILE))) && instance == null
    {
      if instance != null {
        return Ok(instance);
      }
      if generation == Current {
        var resourcePath := locate(ICU_DATA_FILE);
        var initialized := natives.AskFlag(InitializeV8(resourcePath));
        if !initialized {
          return Err(RuntimeException("Cannot initialize V8 with " + resourcePath));
        }
      }
      var v8 := new V8(natives);
      instance := v8;
      r := Ok(v8);
    }
  }

  /**
   * The clean-up action `track` builds: it releases one handle of one
   * runtime, and it holds these two longs only, never the `Reference`, so it
   * keeps nothing the collector must wait for.
   */
  datatype ReleaseAction = ReleaseAction(runtimeHandle: Long, handle: Long)

  /** The one native call running a release action makes. */
  function ReleaseCall(action: ReleaseAction): (c: Call)
    ensures c.ReleaseReference? && c.runtimeHandle == action.runtimeHandle && c.handle == action.handle
  {
    ReleaseReference(action.runtimeHandle, action.handle)
  }

  /** The native calls the release actions in `performed` made, in order. */
  function ReleaseCalls(performed: seq<ReleaseAction>): (calls: seq<Call>)
    ensures |calls| == |performed|
    ensures forall i :: 0 <= i < |performed| ==> calls[i] == ReleaseCall(performed[i])
  {
    seq(|performed|, i requires 0 <= i < |performed| => ReleaseCall(performed[i]))
  }

  /**
   * `track(runtimeHandle, reference, monitor)`: the reference itself is
   * registered once, with an action that releases its handle in that runtime.
   */
  method Track(runtimeHandle: Long, reference: Reference, monitor: ReferenceMonitor<Reference, ReleaseAction>)
    requires monitor.Valid()
    modifies monitor, monitor.ids
    ensures monitor.Valid()
    ensures old(monitor.ids.next) !in old(monitor.references)
    ensures monitor.references == old(monitor.references)[old(monitor.ids.next) :=
              NativeReference(old(monitor.ids.next), reference, ReleaseAction(runtimeHandle, reference.handle))]
    ensures monitor.ids.next == old(monitor.ids.next) + 1
    ensures monitor.phase == old(monitor.phase) && monitor.interrupted == old(monitor.interrupted)
    ensures monitor.performed == old(monitor.performed)
  {
    var handle := reference.handle;
    monitor.Track(reference, ReleaseAction(runtimeHandle, handle));
  }

  /**
   * The native side of a call that yields a JS value (`Runtime::NewReference`):
   * the engine allocates a handle, a `Reference` is built on it with the
   * engine's tag for the value and the capabilities the call passed, and it
   * is tracked by the runtime's monitor before it is returned.
   */
  method NewReference(natives: Natives, c: Call, runtimeHandle: Long, typeGetter: TypeGetter,
                      equalityChecker: EqualityChecker, monitor: ReferenceMonitor<Reference, ReleaseAction>)
    returns (r: Reference)
    requires monitor.Valid()
    modifies natives, monitor, monitor.ids
    ensures natives.calls == old(natives.calls) + [c]
    ensures r == Reference(natives.oracle.longs(old(natives.calls), c),
                           GetResultType(natives.oracle.traits(old(natives.calls), c)),
                           typeGetter, equalityChecker)
    ensures monitor.Valid()
    ensures monitor.references == old(monitor.references)[old(monitor.ids.next) :=
              NativeReference(old(monitor.ids.next), r, ReleaseAction(runtimeHandle, r.handle))]
    ensures monitor.ids.next == old(monitor.ids.next) + 1
    ensures monitor.phase == old(monitor.phase) && monitor.interrupted == old(monitor.interrupted)
    ensures monitor.performed == old(monitor.performed)
  {
    var handle, nominalType := natives.AskHandle(c);
    r := Reference(handle, nominalType, typeGetter, equalityChecker);
    Track(runtimeHandle, r, monitor);
  }

  /**
   * `newValue(runtimeHandle, type, typeGetter, equalityChecker)`: a fresh,
   * uninitialised handle whose nominal tag is the requested one, tracked
   * like every other reference.
   */
  method NewValue(natives: Natives, runtimeHandle: Long, valueType: JSType, typeGetter: TypeGetter,
                  equalityChecker: EqualityChecker, monitor: ReferenceMonitor<Reference, ReleaseAction>)
    returns (r: Reference)
    requires monitor.Valid()
    modifies natives, monitor, monitor.ids
    ensures natives.calls == old(natives.calls) + [Call.NewValue(runtimeHandle, valueType, typeGetter, equalityChecker)]
    ensures r == Reference(natives.oracle.longs(old(natives.calls), Call.NewValue(runtimeHandle, valueType, typeGetter, equalityChecker)),
                           Some(valueType), typeGetter, equalityChecker)
    ensures monitor.Valid()
    ensures monitor.references == old(monitor.references)[old(monitor.ids.next) :=
              NativeReference(old(monitor.ids.next), r, ReleaseAction(runtimeHandle, r.handle))]
    ensures monitor.ids.next == old(monitor.ids.next) + 1
    ensures monitor.phase == old(monitor.phase) && monitor.interrupted == old(monitor.interrupted)
    ensures monitor.performed == old(monitor.performed)
  {
    var handle := natives.AskLong(Call.NewValue(runtimeHandle, valueType, typeGetter, equalityChecker));
    r := Reference(handle, Some(valueType), typeGetter, equalityChecker);
    Track(runtimeHandle, r, monitor);
  }
}
