/**
 * `Runtime`: one V8 context seen from Java. It dispatches a tag to the shape
 * of the JS value wrapper built over a reference, allocates and initialises
 * new values, and closes the context in the order interrupt monitor, join,
 * release.
 */
module Runtimes {
  import opened Wrappers
  import opened JavaTypes
  import opened JSTypes
  import opened Environment
  import opened Boundary
  import opened References
  import opened Monitor
  import opened V8Bridge
  import opened Accessors

  /**
   * The shape of the JS value wrapper `resolve` builds: one variant per tag,
   * carrying the accessors the wrapper is constructed with. `JSInteger` has
   * long accessors in the current generation and int accessors in the legacy
   * one; `JSFloat` is the legacy `JSDouble`.
   */
  datatype Wrapper =
    | JSUndefined
    | JSNull
    | JSBoolean(getter: Accessor, setter: Accessor)
    | JSInteger(getter: Accessor, setter: Accessor)
    | JSFloat(getter: Accessor, setter: Accessor)
    | JSString(getter: Accessor, setter: Accessor)
    | JSExternal(getter: Accessor, setter: Accessor)
    | JSObject(propertyGetter: Accessor, propertySetter: Accessor)
    | JSDate(getter: Accessor, setter: Accessor, propertyGetter: Accessor, propertySetter: Accessor)
    | JSArray(propertyGetter: Accessor, propertySetter: Accessor, arrayDataGetter: Accessor, arrayDataSetter: Accessor)
    | JSFunction(propertyGetter: Accessor, propertySetter: Accessor, invoker: Accessor, functionSetter: Accessor)

  /** The tag a wrapper stands for. */
  function WrapperTag(w: Wrapper): JSType {
    match w
    case JSUndefined => Undefined
    case JSNull => Null
    case JSBoolean(_, _) => Boolean
    case JSInteger(_, _) => Integer
    case JSFloat(_, _) => Float
    case JSString(_, _) => String
    case JSExternal(_, _) => External
    case JSObject(_, _) => Object
    case JSDate(_, _, _, _) => Date
    case JSArray(_, _, _, _) => Array
    case JSFunction(_, _, _, _) => Function
  }

  /** Every accessor a wrapper holds. */
  function WrapperAccessors(w: Wrapper): seq<Accessor> {
    match w
    case JSUndefined => []
    case JSNull => []
    case JSBoolean(g, s) => [g, s]
    case JSInteger(g, s) => [g, s]
    case JSFloat(g, s) => [g, s]
    case JSString(g, s) => [g, s]
    case JSExternal(g, s) => [g, s]
    case JSObject(pg, ps) => [pg, ps]
    case JSDate(g, s, pg, ps) => [g, s, pg, ps]
    case JSArray(pg, ps, ag, as_) => [pg, ps, ag, as_]
    case JSFunction(pg, ps, fi, fs) => [pg, ps, fi, fs]
  }

  /** Whether a wrapper carries the property getter/setter pair of a JS object. */
  predicate HasProperties(w: Wrapper) {
    w.JSObject? || w.JSDate? || w.JSArray? || w.JSFunction?
  }

  /** Whether a wrapper carries the value getter/setter pair of a primitive or a date. */
  predicate HasValueAccessors(w: Wrapper) {
    w.JSBoolean? || w.JSInteger? || w.JSFloat? || w.JSString? || w.JSExternal? || w.JSDate?
  }

  /**
   * The kind of Java value each wrapper class of a tag holds: `Boolean`,
   * `Long` (current) or `Integer` (legacy), `Double`, `String`, an external
   * object, a `Date`; none for the tags whose wrappers hold no value.
   */
  function ValueKindFor(generation: Generation, t: JSType): Option<ValueKind> {
    match t
    case Boolean => Some(BooleanKind)
    case Integer => Some(if generation == Current then LongKind else IntegerKind)
    case Float => Some(DoubleKind)
    case String => Some(StringKind)
    case External => Some(ExternalKind)
    case Date => Some(DateKind)
    case _ => None
  }

  /**
   * `resolve(reference, asType)`: the wrapper for the tag, every accessor
   * bound to the reference's handle; an unsupported tag throws
   * `UnsupportedOperationException`, and a `null` tag, on which the switch
   * itself fails, `NullPointerException`.
   */
  function Resolve(generation: Generation, handle: Long, asType: Option<JSType>): (r: Result<Wrapper, Exception>)
    ensures asType.None? ==> r == Err(NullPointerException)
    ensures asType.Some? && !Supported(asType.value) ==>
              r == Err(UnsupportedOperationException("Cannot resolve reference of type " + asType.value.name))
    ensures asType.Some? && Supported(asType.value) ==> r.Ok? && WrapperTag(r.value) == asType.value
    ensures r.Ok? ==> forall a | a in WrapperAccessors(r.value) :: a.handle == handle
  {
    match asType
    case None => Err(NullPointerException)
    case Some(t) =>
      match t
      case Undefined => Ok(JSUndefined)
      case Null => Ok(JSNull)
      case Boolean => Ok(JSBoolean(BooleanGetter(handle), BooleanSetter(handle)))
      case Integer =>
        if generation == Current then Ok(JSInteger(LongGetter(handle), LongSetter(handle)))
        else Ok(JSInteger(IntegerGetter(handle), IntegerSetter(handle)))
      case Float => Ok(JSFloat(DoubleGetter(handle), DoubleSetter(handle)))
      case String => Ok(JSString(StringGetter(handle), StringSetter(handle)))
      case External => Ok(JSExternal(ExternalGetter(handle), ExternalSetter(handle)))
      case Object => Ok(JSObject(PropertyGetter(handle), PropertySetter(handle)))
      case Date => Ok(JSDate(DateGetter(handle), DateSetter(handle), PropertyGetter(handle), PropertySetter(handle)))
      case Array =>
        Ok(JSArray(PropertyGetter(handle), PropertySetter(handle), ArrayDataGetter(handle), ArrayDataSetter(handle)))
      case Function =>
        Ok(JSFunction(PropertyGetter(handle), PropertySetter(handle), FunctionInvoker(handle), FunctionSetter(handle)))
      case Other(name) => Err(UnsupportedOperationException("Cannot resolve reference of type " + name))
  }

  /**
   * Each accessor of a wrapper for tag `t` touches the value kind its place
   * calls for: the value pair reads and writes the tag's own Java value kind,
   * the property pair properties, the array pair array data, and a function's
   * invoker calls the function while its function setter writes it.
   */
  predicate AccessorKindsFit(generation: Generation, t: JSType, w: Wrapper) {
    && (HasValueAccessors(w) <==> ValueKindFor(generation, t).Some?)
    && (HasValueAccessors(w) ==>
          KindOf(w.getter) == ValueKindFor(generation, t).value && DirectionOf(w.getter) == Reads &&
          KindOf(w.setter) == ValueKindFor(generation, t).value && DirectionOf(w.setter) == Writes)
    && (HasProperties(w) ==>
          KindOf(w.propertyGetter) == PropertyKind && DirectionOf(w.propertyGetter) == Reads &&
          KindOf(w.propertySetter) == PropertyKind && DirectionOf(w.propertySetter) == Writes)
    && (w.JSArray? ==>
          KindOf(w.arrayDataGetter) == ArrayDataKind && DirectionOf(w.arrayDataGetter) == Reads &&
          KindOf(w.arrayDataSetter) == ArrayDataKind && DirectionOf(w.arrayDataSetter) == Writes)
    && (w.JSFunction? ==>
          KindOf(w.invoker) == FunctionKind && DirectionOf(w.invoker) == Invokes &&
          KindOf(w.functionSetter) == FunctionKind && DirectionOf(w.functionSetter) == Writes)
  }

  /** Resolving a supported tag yields a wrapper whose accessors touch the kinds that tag calls for. */
  lemma ResolveFitsAccessorKinds(generation: Generation, handle: Long, t: JSType)
    requires Supported(t)
    ensures Resolve(generation, handle, Some(t)).Ok?
    ensures AccessorKindsFit(generation, t, Resolve(generation, handle, Some(t)).value)
  {
    if ValueKindFor(generation, t).Some? {
      ValueWrapperFits(generation, handle, t);
    } else {
      PlainWrapperFits(generation, handle, t);
    }
  }

  /** The tags whose wrappers hold a value: the value pair has the tag's kind. */
  lemma ValueWrapperFits(generation: Generation, handle: Long, t: JSType)
    requires ValueKindFor(generation, t).Some?
    ensures Resolve(generation, handle, Some(t)).Ok?
    ensures AccessorKindsFit(generation, t, Resolve(generation, handle, Some(t)).value)
  {
    var w := Resolve(generation, handle, Some(t)).value;
    match t
    case Boolean => assert w == JSBoolean(BooleanGetter(handle), BooleanSetter(handle));
    case Integer =>
      if generation == Current {
        assert w == JSInteger(LongGetter(handle), LongSetter(handle));
      } else {
        assert w == JSInteger(IntegerGetter(handle), IntegerSetter(handle));
      }
    case Float => assert w == JSFloat(DoubleGetter(handle), DoubleSetter(handle));
    case String => assert w == JSString(StringGetter(handle), StringSetter(handle));
    case External => assert w == JSExternal(ExternalGetter(handle), ExternalSetter(handle));
    case Date =>
      assert w == JSDate(DateGetter(handle), DateSetter(handle), PropertyGetter(handle), PropertySetter(handle));
  }

  /** The supported tags whose wrappers hold no value: only property, array and function accessors. */
  lemma PlainWrapperFits(generation: Generation, handle: Long, t: JSType)
    requires Supported(t) && ValueKindFor(generation, t).None?
    ensures Resolve(generation, handle, Some(t)).Ok?
    ensures AccessorKindsFit(generation, t, Resolve(generation, handle, Some(t)).value)
  {
    var w := Resolve(generation, handle, Some(t)).value;
    match t
    case Undefined => assert w == JSUndefined;
    case Null => assert w == JSNull;
    case Object => assert w == JSObject(PropertyGetter(handle), PropertySetter(handle));
    case Array =>
      assert w == JSArray(PropertyGetter(handle), PropertySetter(handle), ArrayDataGetter(handle), ArrayDataSetter(handle));
    case Function =>
      assert w == JSFunction(PropertyGetter(handle), PropertySetter(handle), FunctionInvoker(handle), FunctionSetter(handle));
  }

  /** The tag an init call gives the value it initialises; `None` for any other call. */
  function InitializedTag(c: Call): Option<JSType> {
    match c
    case InitUndefinedValue(_, _) => Some(Undefined)
    case InitNullValue(_, _) => Some(Null)
    case InitBooleanValue(_, _) => Some(Boolean)
    case InitLongValue(_, _) => Some(Integer)
    case InitIntegerValue(_, _) => Some(Integer)
    case InitDoubleValue(_, _) => Some(Float)
    case InitStringValue(_, _) => Some(String)
    case InitExternalValue(_, _) => Some(External)
    case InitObjectValue(_, _) => Some(Object)
    case InitDateTimeValue(_, _) => Some(Date)
    case InitArrayValue(_, _) => Some(Array)
    case InitFunctionValue(_, _) => Some(Function)
    case _ => None
  }

  /**
   * The init call `createNewReference` issues for a tag on a freshly
   * allocated handle: `initLongValue` for `Integer` in the current
   * generation, `initIntegerValue` in the legacy one; none for an
   * unsupported tag.
   */
  function InitCallFor(generation: Generation, t: JSType, runtimeHandle: Long, handle: Long): (c: Option<Call>)
    ensures c.Some? <==> Supported(t)
    ensures c.Some? ==> InitializedTag(c.value) == Some(t)
    ensures c.Some? ==> c.value.runtimeHandle == runtimeHandle && c.value.handle == handle
    ensures t == Integer ==> c == Some(if generation == Current then InitLongValue(runtimeHandle, handle)
                                       else InitIntegerValue(runtimeHandle, handle))
  {
    match t
    case Undefined => Some(InitUndefinedValue(runtimeHandle, handle))
    case Null => Some(InitNullValue(runtimeHandle, handle))
    case Boolean => Some(InitBooleanValue(runtimeHandle, handle))
    case Integer =>
      if generation == Current then Some(InitLongValue(runtimeHandle, handle))
      else Some(InitIntegerValue(runtimeHandle, handle))
    case Float => Some(InitDoubleValue(runtimeHandle, handle))
    case String => Some(InitStringValue(runtimeHandle, handle))
    case External => Some(InitExternalValue(runtimeHandle, handle))
    case Object => Some(InitObjectValue(runtimeHandle, handle))
    case Date => Some(InitDateTimeValue(runtimeHandle, handle))
    case Array => Some(InitArrayValue(runtimeHandle, handle))
    case Function => Some(InitFunctionValue(runtimeHandle, handle))
    case Other(_) => None
  }

  /** A tag can be created exactly when it can be resolved. */
  lemma ResolveAgreesWithCreate(generation: Generation, runtimeHandle: Long, handle: Long, t: JSType)
    ensures Resolve(generation, handle, Some(t)).Ok? <==> InitCallFor(generation, t, runtimeHandle, handle).Some?
  {
  }

  /** The composite tags, and only they, get the property getter/setter pair. */
  lemma PropertiesExactlyForComposites(generation: Generation, handle: Long, t: JSType)
    requires Supported(t)
    ensures HasProperties(Resolve(generation, handle, Some(t)).value) <==> t in {Object, Date, Array, Function}
    ensures HasProperties(Resolve(generation, handle, Some(t)).value) ==>
              Resolve(generation, handle, Some(t)).value.propertyGetter == PropertyGetter(handle) &&
              Resolve(generation, handle, Some(t)).value.propertySetter == PropertySetter(handle)
  {
  }

  /** The two generations read and write a JS integer through different widths. */
  lemma IntegerAccessorsByGeneration(handle: Long)
    ensures Resolve(Current, handle, Some(Integer)) == Ok(JSInteger(LongGetter(handle), LongSetter(handle)))
    ensures Resolve(Legacy, handle, Some(Integer)) == Ok(JSInteger(IntegerGetter(handle), IntegerSetter(handle)))
    ensures forall t | t != Integer :: Resolve(Current, handle, Some(t)) == Resolve(Legacy, handle, Some(t))
  {
  }

  class Runtime {
    const generation: Generation
    const v8: V8
    const runtimeHandle: Long
    const accessorsFactory: AccessorsFactory
    const referenceMonitor: ReferenceMonitor<Reference, ReleaseAction>
    /** The closed flag the base runtime keeps. */
    var closed: bool

    /** The factory serves this runtime, and the monitor has been started. */
    ghost predicate Valid()
      reads this, accessorsFactory, referenceMonitor, referenceMonitor.ids
    {
      accessorsFactory.v8 == v8 && accessorsFactory.runtimeHandle == runtimeHandle && accessorsFactory.Valid() &&
      referenceMonitor.Valid() && referenceMonitor.phase != Created
    }

    /**
     * `Runtime(v8, runtimeHandle, referenceMonitor)`: a factory of its own
     * for this context, and the monitor is started, once.
     */
    constructor (generation: Generation, v8: V8, runtimeHandle: Long,
                 referenceMonitor: ReferenceMonitor<Reference, ReleaseAction>, dateFormat: DateFormat)
      requires referenceMonitor.Valid() && referenceMonitor.phase == Created
      modifies referenceMonitor
      ensures this.generation == generation && this.v8 == v8 && this.runtimeHandle == runtimeHandle
      ensures this.referenceMonitor == referenceMonitor
      ensures fresh(accessorsFactory) && accessorsFactory.dateFormat == dateFormat
      ensures accessorsFactory.referenceTypeGetter == null && accessorsFactory.equalityChecker == null
      ensures referenceMonitor.phase == Running && referenceMonitor.interrupted == old(referenceMonitor.interrupted)
      ensures referenceMonitor.references == old(referenceMonitor.references)
      ensures referenceMonitor.performed == old(referenceMonitor.performed)
      ensures !closed
      ensures Valid()
    {
      this.generation := generation;
      this.v8 := v8;
      this.runtimeHandle := runtimeHandle;
      this.referenceMonitor := referenceMonitor;
      accessorsFactory := new AccessorsFactory(v8, runtimeHandle, dateFormat);
      closed := false;
      new;
      referenceMonitor.Start();
    }

    /**
     * `getGlobalObject()`: the global object's reference, fetched afresh with
     * one `globalObjectReference` call and the memoised capabilities, and
     * tracked like every reference the engine hands out.
     */
    method GetGlobalObject() returns (r: Reference)
      requires Valid()
      modifies accessorsFactory`referenceTypeGetter, accessorsFactory`equalityChecker, v8.natives,
               referenceMonitor, referenceMonitor.ids
      ensures Valid()
      ensures old(accessorsFactory.referenceTypeGetter) != null ==>
                accessorsFactory.referenceTypeGetter == old(accessorsFactory.referenceTypeGetter)
      ensures old(accessorsFactory.equalityChecker) != null ==>
                accessorsFactory.equalityChecker == old(accessorsFactory.equalityChecker)
      ensures accessorsFactory.referenceTypeGetter != null && accessorsFactory.equalityChecker != null
      ensures var c := GlobalObjectReference(runtimeHandle, accessorsFactory.referenceTypeGetter, accessorsFactory.equalityChecker);
              v8.natives.calls == old(v8.natives.calls) + [c] &&
              r == Reference(v8.natives.oracle.longs(old(v8.natives.calls), c),
                             GetResultType(v8.natives.oracle.traits(old(v8.natives.calls), c)),
                             accessorsFactory.referenceTypeGetter, accessorsFactory.equalityChecker)
      ensures referenceMonitor.references == old(referenceMonitor.references)[old(referenceMonitor.ids.next) :=
                NativeReference(old(referenceMonitor.ids.next), r, ReleaseAction(runtimeHandle, r.handle))]
      ensures referenceMonitor.performed == old(referenceMonitor.performed)
      ensures referenceMonitor.phase == old(referenceMonitor.phase) &&
              referenceMonitor.interrupted == old(referenceMonitor.interrupted)
      ensures referenceMonitor.ids.next == old(referenceMonitor.ids.next) + 1
      ensures closed == old(closed)
    {
      var typeGetter := accessorsFactory.ReferenceTypeGetter();
      var checker := accessorsFactory.EqualityChecker();
      r := NewReference(v8.natives, GlobalObjectReference(runtimeHandle, typeGetter, checker),
                        runtimeHandle, typeGetter, checker, referenceMonitor);
    }

    /**
     * `createNewReference(type)`: one `newValue` call allocates a handle with
     * the memoised capabilities; then the tag's one init call, or, for an
     * unsupported tag, `UnsupportedOperationException` after the handle has
     * already been allocated and tracked.
     */
    method CreateNewReference(t: JSType) returns (r: Result<Reference, Exception>)
      requires Valid()
      modifies accessorsFactory`referenceTypeGetter, accessorsFactory`equalityChecker, v8.natives,
               referenceMonitor, referenceMonitor.ids
      ensures Valid()
      ensures old(accessorsFactory.referenceTypeGetter) != null ==>
                accessorsFactory.referenceTypeGetter == old(accessorsFactory.referenceTypeGetter)
      ensures old(accessorsFactory.equalityChecker) != null ==>
                accessorsFactory.equalityChecker == old(accessorsFactory.equalityChecker)
      ensures accessorsFactory.referenceTypeGetter != null && accessorsFactory.equalityChecker != null
      ensures var tg := accessorsFactory.referenceTypeGetter;
              var ec := accessorsFactory.equalityChecker;
              var allocation := Call.NewValue(runtimeHandle, t, tg, ec);
              var handle := v8.natives.oracle.longs(old(v8.natives.calls), allocation);
              var reference := Reference(handle, Some(t), tg, ec);
              referenceMonitor.references == old(referenceMonitor.references)[old(referenceMonitor.ids.next) :=
                NativeReference(old(referenceMonitor.ids.next), reference, ReleaseAction(runtimeHandle, handle))] &&
              match InitCallFor(generation, t, runtimeHandle, handle)
              case Some(init) => v8.natives.calls == old(v8.natives.calls) + [allocation, init] && r == Ok(reference)
              case None =>
                v8.natives.calls == old(v8.natives.calls) + [allocation] &&
                r == Err(UnsupportedOperationException("Cannot create reference of type " + t.name))
      ensures referenceMonitor.performed == old(referenceMonitor.performed)
      ensures referenceMonitor.phase == old(referenceMonitor.phase) &&
              referenceMonitor.interrupted == old(referenceMonitor.interrupted)
      ensures referenceMonitor.ids.next == old(referenceMonitor.ids.next) + 1
      ensures closed == old(closed)
    {
      var typeGetter := accessorsFactory.ReferenceTypeGetter();
      var checker := accessorsFactory.EqualityChecker();
      var reference := V8Bridge.NewValue(v8.natives, runtimeHandle, t, typeGetter, checker, referenceMonitor);
      var init := InitCallFor(generation, t, runtimeHandle, reference.handle);
      if init.None? {
        return Err(UnsupportedOperationException("Cannot create reference of type " + t.name));
      }
      v8.natives.Invoke(init.value);
      r := Ok(reference);
    }

    /** `runScript(name, script)`: one `executeScript` call with the memoised capabilities; its result is tracked. */
    method RunScript(name: string, script: string) returns (r: Reference)
      requires Valid()
      modifies accessorsFactory`referenceTypeGetter, accessorsFactory`equalityChecker, v8.natives,
               referenceMonitor, referenceMonitor.ids
      ensures Valid()
      ensures old(accessorsFactory.referenceTypeGetter) != null ==>
                accessorsFactory.referenceTypeGetter == old(accessorsFactory.referenceTypeGetter)
      ensures old(accessorsFactory.equalityChecker) != null ==>
                accessorsFactory.equalityChecker == old(accessorsFactory.equalityChecker)
      ensures accessorsFactory.referenceTypeGetter != null && accessorsFactory.equalityChecker != null
      ensures var c := ExecuteScript(runtimeHandle, name, script,
                                     accessorsFactory.referenceTypeGetter, accessorsFactory.equalityChecker);
              v8.natives.calls == old(v8.natives.calls) + [c] &&
              r == Reference(v8.natives.oracle.longs(old(v8.natives.calls), c),
                             GetResultType(v8.natives.oracle.traits(old(v8.natives.calls), c)),
                             accessorsFactory.referenceTypeGetter, accessorsFactory.equalityChecker)
      ensures referenceMonitor.references == old(referenceMonitor.references)[old(referenceMonitor.ids.next) :=
                NativeReference(old(referenceMonitor.ids.next), r, ReleaseAction(runtimeHandle, r.handle))]
      ensures referenceMonitor.performed == old(referenceMonitor.performed)
      ensures referenceMonitor.phase == old(referenceMonitor.phase) &&
              referenceMonitor.interrupted == old(referenceMonitor.interrupted)
      ensures referenceMonitor.ids.next == old(referenceMonitor.ids.next) + 1
      ensures closed == old(closed)
    {
      var typeGetter := accessorsFactory.ReferenceTypeGetter();
      var checker := accessorsFactory.EqualityChecker();
      r := NewReference(v8.natives, ExecuteScript(runtimeHandle, name, script, typeGetter, checker),
                        runtimeHandle, typeGetter, checker, referenceMonitor);
    }

    /**
     * `close()`. A closed runtime is left alone. Otherwise the monitor is
     * interrupted; the current generation then joins it, which lets the
     * poll in flight (`lastPoll`) finish and the loop exit, dropping the
     * remaining entries unrun, unless the joining thread is itself
     * interrupted (`joinInterrupted`), which is ignored; the legacy
     * generation does not join. Last, one `releaseRuntime` call, and the
     * runtime is closed only if it answers true.
     */
    method Close(lastPoll: PollResult<Reference, ReleaseAction>, joinInterrupted: bool)
      requires Valid()
      modifies this, referenceMonitor, v8.natives
      ensures Valid()
      ensures old(closed) ==>
                closed && v8.natives.calls == old(v8.natives.calls) &&
                referenceMonitor.phase == old(referenceMonitor.phase) &&
                referenceMonitor.interrupted == old(referenceMonitor.interrupted) &&
                referenceMonitor.references == old(referenceMonitor.references) &&
                referenceMonitor.performed == old(referenceMonitor.performed)
      ensures !old(closed) ==>
                v8.natives.calls == old(v8.natives.calls) + [ReleaseRuntime(runtimeHandle)] &&
                closed == v8.natives.oracle.flags(old(v8.natives.calls), ReleaseRuntime(runtimeHandle)) &&
                referenceMonitor.interrupted
      ensures !old(closed) && generation == Current && !joinInterrupted && old(referenceMonitor.phase) == Running ==>
                referenceMonitor.phase == Stopped && referenceMonitor.references == map[] &&
                referenceMonitor.performed == old(referenceMonitor.performed) +
                  (if lastPoll.Dequeued? then [lastPoll.ref.cleanUpAction] else [])
      ensures !old(closed) && (generation == Legacy || joinInterrupted || old(referenceMonitor.phase) == Stopped) ==>
                referenceMonitor.phase == old(referenceMonitor.phase) &&
                referenceMonitor.references == old(referenceMonitor.references) &&
                referenceMonitor.performed == old(referenceMonitor.performed)
    {
      if closed {
        return;
      }
      referenceMonitor.Interrupt();
      if generation == Current && !joinInterrupted && referenceMonitor.phase == Running {
        referenceMonitor.PollStep(lastPoll);
        referenceMonitor.Exit();
      }
      var released := v8.natives.AskFlag(ReleaseRuntime(runtimeHandle));
      if released {
        closed := true;
      }
    }

    /**
     * `equals(obj)`: true exactly for a `Runtime` of the same package (the
     * two generations are distinct Java classes, so `instanceof` fails
     * across them) on the same context handle.
     */
    predicate Equals(obj: object?)
      ensures Equals(obj) ==> obj is Runtime && (obj as Runtime).generation == generation
      ensures obj == this ==> Equals(obj)
    {
      obj is Runtime && (obj as Runtime).generation == generation && (obj as Runtime).runtimeHandle == runtimeHandle
    }

    /**
     * `hashCode()`: the folded context handle in the current generation; the
     * legacy class does not override it, so there it is the identity hash,
     * which is a parameter.
     */
    function HashCode(identityHash: Runtime -> bv32): (h: bv32)
      ensures generation == Current ==> h == JavaFold(runtimeHandle)
      ensures generation == Legacy ==> h == identityHash(this)
    {
      FoldLongIsJavaFold(runtimeHandle);
      if generation == Current then FoldLong(runtimeHandle) else identityHash(this)
    }
  }

  /** Runtime equality is an equivalence relation. */
  lemma EqualsIsEquivalence(a: Runtime, b: Runtime, c: Runtime)
    ensures a.Equals(a)
    ensures a.Equals(b) ==> b.Equals(a)
    ensures a.Equals(b) && b.Equals(c) ==> a.Equals(c)
    ensures !a.Equals(null)
  {
  }

  /** A runtime of one generation never equals a runtime of the other, whatever their handles. */
  lemma GenerationsNeverEqual(a: Runtime, b: Runtime)
    requires a.generation != b.generation
    ensures !a.Equals(b) && !b.Equals(a)
  {
  }

  /** In the current generation, equal runtimes hash alike, whatever the identity hash. */
  lemma CurrentEqualsAgreesWithHash(a: Runtime, b: Runtime, identityHash: Runtime -> bv32)
    requires a.generation == Current && b.generation == Current
    requires a.Equals(b)
    ensures a.HashCode(identityHash) == b.HashCode(identityHash)
  {
  }

  /**
   * In the legacy generation, two distinct runtime objects on the same
   * context handle are equal, yet an identity hash can tell them apart.
   */
  lemma LegacyEqualsDisagreesWithHash(a: Runtime, b: Runtime)
    requires a.generation == Legacy && b.generation == Legacy
    requires a != b && a.runtimeHandle == b.runtimeHandle
    ensures a.Equals(b)
    ensures exists identityHash: Runtime -> bv32 :: a.HashCode(identityHash) != b.HashCode(identityHash)
  {
    var identityHash: Runtime -> bv32 := r => if r == a then 0 else 1;
    assert a.HashCode(identityHash) == 0;
    assert b.HashCode(identityHash) == 1;
  }
}
