/**
 * `AccessorsFactory`: the per-runtime source of the capabilities and of the
 * accessor closures the JS value wrappers are built from. Each accessor is
 * bound to one handle; applying it makes exactly one boundary call on that
 * handle in the factory's runtime.
 */
module Accessors {
  import opened Wrappers
  import opened JavaTypes
  import opened JSTypes
  import opened Environment
  import opened Boundary
  import opened References
  import opened Monitor
  import opened V8Bridge

  /**
   * The accessor closures the factory builds, each with the handle it is
   * bound to. `LongGetter`/`LongSetter` belong to the current generation,
   * `IntegerGetter`/`IntegerSetter` to the legacy one; the rest to both.
   */
  datatype Accessor =
    | BooleanGetter(handle: Long)
    | BooleanSetter(handle: Long)
    | LongGetter(handle: Long)
    | LongSetter(handle: Long)
    | IntegerGetter(handle: Long)
    | IntegerSetter(handle: Long)
    | DoubleGetter(handle: Long)
    | DoubleSetter(handle: Long)
    | StringGetter(handle: Long)
    | StringSetter(handle: Long)
    | ExternalGetter(handle: Long)
    | ExternalSetter(handle: Long)
    | DateGetter(handle: Long)
    | DateSetter(handle: Long)
    | PropertyGetter(handle: Long)
    | PropertySetter(handle: Long)
    | ArrayDataGetter(handle: Long)
    | ArrayDataSetter(handle: Long)
    | FunctionInvoker(handle: Long)
    | FunctionSetter(handle: Long)

  /** The kind of engine value an accessor's one native call touches. */
  datatype ValueKind =
    | BooleanKind | LongKind | IntegerKind | DoubleKind | StringKind | ExternalKind | DateKind
    | PropertyKind | ArrayDataKind | FunctionKind

  /** What an accessor's native call does with the value: read it, write it, or call it. */
  datatype Direction = Reads | Writes | Invokes

  /** The kind of value an accessor's native call reads, writes or invokes. */
  function KindOf(a: Accessor): ValueKind {
    match a
    case BooleanGetter(_) => BooleanKind
    case BooleanSetter(_) => BooleanKind
    case LongGetter(_) => LongKind
    case LongSetter(_) => LongKind
    case IntegerGetter(_) => IntegerKind
    case IntegerSetter(_) => IntegerKind
    case DoubleGetter(_) => DoubleKind
    case DoubleSetter(_) => DoubleKind
    case StringGetter(_) => StringKind
    case StringSetter(_) => StringKind
    case ExternalGetter(_) => ExternalKind
    case ExternalSetter(_) => ExternalKind
    case DateGetter(_) => DateKind
    case DateSetter(_) => DateKind
    case PropertyGetter(_) => PropertyKind
    case PropertySetter(_) => PropertyKind
    case ArrayDataGetter(_) => ArrayDataKind
    case ArrayDataSetter(_) => ArrayDataKind
    case FunctionInvoker(_) => FunctionKind
    case FunctionSetter(_) => FunctionKind
  }

  /** Whether an accessor's native call reads, writes or invokes its value. */
  function DirectionOf(a: Accessor): Direction {
    match a
    case BooleanGetter(_) => Reads
    case LongGetter(_) => Reads
    case IntegerGetter(_) => Reads
    case DoubleGetter(_) => Reads
    case StringGetter(_) => Reads
    case ExternalGetter(_) => Reads
    case DateGetter(_) => Reads
    case PropertyGetter(_) => Reads
    case ArrayDataGetter(_) => Reads
    case FunctionInvoker(_) => Invokes
    case _ => Writes
  }

  /** The pattern of the factory's shared `SimpleDateFormat`. */
  const DATE_TIME_PATTERN: string := "yyyy-MM-dd'T'HH:mm:ss.SSSXXX"

  /** The message of the exception a date that does not parse raises. */
  const WRONG_DATE_TIME_FORMAT: string := "Wrong date-time format."

  /**
   * The conversions of the shared `SimpleDateFormat`: `format` gives the text
   * of a date, and `parse` the date a text denotes (`None` when it throws
   * `ParseException`). Both depend on the local time zone and are opaque.
   */
  datatype DateFormat = DateFormat(format: HostDate -> string, parse: string -> Option<HostDate>)

  /** The handles of `refs`, in order. */
  function Handles(refs: seq<Reference>): (handles: seq<Long>)
    ensures |handles| == |refs|
    ensures forall i :: 0 <= i < |refs| ==> handles[i] == refs[i].handle
  {
    seq(|refs|, i requires 0 <= i < |refs| => refs[i].handle)
  }

  /** `referenceToHandle(args)`: a new array of the same length holding each argument's handle, in order. */
  method ReferenceToHandle(args: array<Reference>) returns (handles: array<Long>)
    ensures handles.Length == args.Length
    ensures forall i :: 0 <= i < args.Length ==> handles[i] == args[i].handle
    ensures handles[..] == Handles(args[..])
  {
    handles := new Long[args.Length];
    for i := 0 to args.Length
      invariant forall j :: 0 <= j < i ==> handles[j] == args[j].handle
    {
      handles[i] := args[i].handle;
    }
  }

  class AccessorsFactory {
    const v8: V8
    const runtimeHandle: Long
    const dateFormat: DateFormat
    var referenceTypeGetter: TypeGetter?
    var equalityChecker: EqualityChecker?

    /** A memoised capability, once made, asks this factory's runtime through this factory's library. */
    ghost predicate Valid()
      reads this
    {
      (referenceTypeGetter != null ==>
         referenceTypeGetter.natives == v8.natives && referenceTypeGetter.runtimeHandle == runtimeHandle) &&
      (equalityChecker != null ==>
         equalityChecker.natives == v8.natives && equalityChecker.runtimeHandle == runtimeHandle)
    }

    constructor (v8: V8, runtimeHandle: Long, dateFormat: DateFormat)
      ensures this.v8 == v8 && this.runtimeHandle == runtimeHandle && this.dateFormat == dateFormat
      ensures referenceTypeGetter == null && equalityChecker == null
      ensures Valid()
    {
      this.v8 := v8;
      this.runtimeHandle := runtimeHandle;
      this.dateFormat := dateFormat;
      referenceTypeGetter := null;
      equalityChecker := null;
    }

    /** `referenceTypeGetter()`: made on the first call, the identical object on every later one. */
    method ReferenceTypeGetter() returns (g: TypeGetter)
      requires Valid()
      modifies this`referenceTypeGetter
      ensures Valid()
      ensures old(referenceTypeGetter) != null ==> g == old(referenceTypeGetter)
      ensures old(referenceTypeGetter) == null ==> fresh(g)
      ensures referenceTypeGetter == g
      ensures g.natives == v8.natives && g.runtimeHandle == runtimeHandle
    {
      if referenceTypeGetter == null {
        referenceTypeGetter := new TypeGetter(v8.natives, runtimeHandle);
      }
      g := referenceTypeGetter;
    }

    /** `equalityChecker()`: made on the first call, the identical object on every later one. */
    method EqualityChecker() returns (c: EqualityChecker)
      requires Valid()
      modifies this`equalityChecker
      ensures Valid()
      ensures old(equalityChecker) != null ==> c == old(equalityChecker)
      ensures old(equalityChecker) == null ==> fresh(c)
      ensures equalityChecker == c
      ensures c.natives == v8.natives && c.runtimeHandle == runtimeHandle
    {
      if equalityChecker == null {
        equalityChecker := new EqualityChecker(v8.natives, runtimeHandle);
      }
      c := equalityChecker;
    }

    /** The value of a `booleanGetter(handle)`: one `getBooleanValue` call. */
    method GetBoolean(handle: Long) returns (b: bool)
      modifies v8.natives
      ensures v8.natives.calls == old(v8.natives.calls) + [GetBooleanValue(runtimeHandle, handle)]
      ensures b == v8.natives.oracle.flags(old(v8.natives.calls), GetBooleanValue(runtimeHandle, handle))
    {
      b := v8.natives.AskFlag(GetBooleanValue(runtimeHandle, handle));
    }

    /** Applying a `booleanSetter(handle)`: one `setBooleanValue` call carrying the value. */
    method SetBoolean(handle: Long, value: bool)
      modifies v8.natives
      ensures v8.natives.calls == old(v8.natives.calls) + [SetBooleanValue(runtimeHandle, handle, value)]
    {
      v8.natives.Invoke(SetBooleanValue(runtimeHandle, handle, value));
    }

    /** The value of a `longGetter(handle)`: one `getLongValue` call. */
    method GetLong(handle: Long) returns (x: Long)
      modifies v8.natives
      ensures v8.natives.calls == old(v8.natives.calls) + [GetLongValue(runtimeHandle, handle)]
      ensures x == v8.natives.oracle.longs(old(v8.natives.calls), GetLongValue(runtimeHandle, handle))
    {
      x := v8.natives.AskLong(GetLongValue(runtimeHandle, handle));
    }

    /** Applying a `longSetter(handle)`: one `setLongValue` call carrying the value. */
    method SetLong(handle: Long, value: Long)
      modifies v8.natives
      ensures v8.natives.calls == old(v8.natives.calls) + [SetLongValue(runtimeHandle, handle, value)]
    {
      v8.natives.Invoke(SetLongValue(runtimeHandle, handle, value));
    }

    /** The value of a legacy `integerGetter(handle)`: one `getIntegerValue` call, an `int`. */
    method GetInteger(handle: Long) returns (x: Int)
      modifies v8.natives
      ensures v8.natives.calls == old(v8.natives.calls) + [GetIntegerValue(runtimeHandle, handle)]
      ensures x == v8.natives.oracle.ints(old(v8.natives.calls), GetIntegerValue(runtimeHandle, handle))
    {
      x := v8.natives.AskInt(GetIntegerValue(runtimeHandle, handle));
    }

    /** Applying a legacy `integerSetter(handle)`: one `setIntegerValue` call carrying the `int`. */
    method SetInteger(handle: Long, value: Int)
      modifies v8.natives
      ensures v8.natives.calls == old(v8.natives.calls) + [SetIntegerValue(runtimeHandle, handle, value)]
    {
      v8.natives.Invoke(SetIntegerValue(runtimeHandle, handle, value));
    }

    /** The value of a `doubleGetter(handle)`: one `getDoubleValue` call. */
    method GetDouble(handle: Long) returns (x: Double)
      modifies v8.natives
      ensures v8.natives.calls == old(v8.natives.calls) + [GetDoubleValue(runtimeHandle, handle)]
      ensures x == v8.natives.oracle.doubles(old(v8.natives.calls), GetDoubleValue(runtimeHandle, handle))
    {
      x := v8.natives.AskDouble(GetDoubleValue(runtimeHandle, handle));
    }

    /** Applying a `doubleSetter(handle)`: one `setDoubleValue` call carrying the value. */
    method SetDouble(handle: Long, value: Double)
      modifies v8.natives
      ensures v8.natives.calls == old(v8.natives.calls) + [SetDoubleValue(runtimeHandle, handle, value)]
    {
      v8.natives.Invoke(SetDoubleValue(runtimeHandle, handle, value));
    }

    /** The value of a `stringGetter(handle)`: one `getStringValue` call. */
    method GetString(handle: Long) returns (s: string)
      modifies v8.natives
      ensures v8.natives.calls == old(v8.natives.calls) + [GetStringValue(runtimeHandle, handle)]
      ensures s == v8.natives.oracle.texts(old(v8.natives.calls), GetStringValue(runtimeHandle, handle))
    {
      s := v8.natives.AskText(GetStringValue(runtimeHandle, handle));
    }

    /** Applying a `stringSetter(handle)`: one `setStringValue` call carrying the value. */
    method SetString(handle: Long, value: string)
      modifies v8.natives
      ensures v8.natives.calls == old(v8.natives.calls) + [SetStringValue(runtimeHandle, handle, value)]
    {
      v8.natives.Invoke(SetStringValue(runtimeHandle, handle, value));
    }

    /** The value of an `externalGetter(handle)`: one `getExternalValue` call. */
    method GetExternal(handle: Long) returns (o: Option<object>)
      modifies v8.natives
      ensures v8.natives.calls == old(v8.natives.calls) + [GetExternalValue(runtimeHandle, handle)]
      ensures o == v8.natives.oracle.externals(old(v8.natives.calls), GetExternalValue(runtimeHandle, handle))
    {
      o := v8.natives.AskExternal(GetExternalValue(runtimeHandle, handle));
    }

    /** Applying an `externalSetter(handle)`: one `setExternalValue` call carrying the object. */
    method SetExternal(handle: Long, value: Option<object>)
      modifies v8.natives
      ensures v8.natives.calls == old(v8.natives.calls) + [SetExternalValue(runtimeHandle, handle, value)]
    {
      v8.natives.Invoke(SetExternalValue(runtimeHandle, handle, value));
    }

    /**
     * The value of a `dateGetter(handle)`: one `getDateTimeString` call, then
     * the text is parsed; text that does not parse raises
     * `IllegalArgumentException("Wrong date-time format.")`.
     */
    method GetDate(handle: Long) returns (r: Result<HostDate, Exception>)
      modifies v8.natives
      ensures v8.natives.calls == old(v8.natives.calls) + [GetDateTimeString(runtimeHandle, handle)]
      ensures var text := v8.natives.oracle.texts(old(v8.natives.calls), GetDateTimeString(runtimeHandle, handle));
              match dateFormat.parse(text)
              case Some(d) => r == Ok(d)
              case None => r == Err(IllegalArgumentException(WRONG_DATE_TIME_FORMAT))
    {
      var text := v8.natives.AskText(GetDateTimeString(runtimeHandle, handle));
      var parsed := dateFormat.parse(text);
      if parsed.None? {
        return Err(IllegalArgumentException(WRONG_DATE_TIME_FORMAT));
      }
      r := Ok(parsed.value);
    }

    /** Applying a `dateSetter(handle)`: the date is formatted, then one `setDateTime` call carries the text. */
    method SetDate(handle: Long, value: HostDate)
      modifies v8.natives
      ensures v8.natives.calls == old(v8.natives.calls) + [SetDateTime(runtimeHandle, handle, dateFormat.format(value))]
    {
      var text := dateFormat.format(value);
      v8.natives.Invoke(SetDateTime(runtimeHandle, handle, text));
    }

    /**
     * Applying a `propertyGetter(handle)` to a name: one `getObjectProperty`
     * call with the memoised capabilities; the reference it yields is tracked.
     */
    method GetProperty(handle: Long, name: string, monitor: ReferenceMonitor<Reference, ReleaseAction>)
      returns (r: Reference)
      requires Valid() && monitor.Valid()
      modifies this`referenceTypeGetter, this`equalityChecker, v8.natives, monitor, monitor.ids
      ensures Valid()
      ensures old(referenceTypeGetter) != null ==> referenceTypeGetter == old(referenceTypeGetter)
      ensures old(equalityChecker) != null ==> equalityChecker == old(equalityChecker)
      ensures referenceTypeGetter != null && equalityChecker != null
      ensures var c := GetObjectProperty(runtimeHandle, handle, name, referenceTypeGetter, equalityChecker);
              v8.natives.calls == old(v8.natives.calls) + [c] &&
              r == Reference(v8.natives.oracle.longs(old(v8.natives.calls), c),
                             GetResultType(v8.natives.oracle.traits(old(v8.natives.calls), c)),
                             referenceTypeGetter, equalityChecker)
      ensures monitor.references == old(monitor.references)[old(monitor.ids.next) :=
                NativeReference(old(monitor.ids.next), r, ReleaseAction(runtimeHandle, r.handle))]
      ensures monitor.Valid() && monitor.performed == old(monitor.performed) && monitor.phase == old(monitor.phase)
      ensures monitor.interrupted == old(monitor.interrupted) && monitor.ids.next == old(monitor.ids.next) + 1
    {
      var typeGetter := ReferenceTypeGetter();
      var checker := EqualityChecker();
      r := NewReference(v8.natives, GetObjectProperty(runtimeHandle, handle, name, typeGetter, checker),
                        runtimeHandle, typeGetter, checker, monitor);
    }

    /** Applying a `propertySetter(handle)`: one `setObjectProperty` call carrying the value's handle. */
    method SetProperty(handle: Long, name: string, value: Reference)
      modifies v8.natives
      ensures v8.natives.calls == old(v8.natives.calls) + [SetObjectProperty(runtimeHandle, handle, name, value.handle)]
    {
      v8.natives.Invoke(SetObjectProperty(runtimeHandle, handle, name, value.handle));
    }

    /** `getSize()` of an `arrayDataGetter(handle)`: one `getArraySize` call. */
    method GetSize(handle: Long) returns (size: Int)
      modifies v8.natives
      ensures v8.natives.calls == old(v8.natives.calls) + [GetArraySize(runtimeHandle, handle)]
      ensures size == v8.natives.oracle.ints(old(v8.natives.calls), GetArraySize(runtimeHandle, handle))
    {
      size := v8.natives.AskInt(GetArraySize(runtimeHandle, handle));
    }

    /**
     * `getItemByPosition(position)` of an `arrayDataGetter(handle)`: one
     * `getElementByPosition` call with the memoised capabilities.
     */
    method GetItemByPosition(handle: Long, position: Int, monitor: ReferenceMonitor<Reference, ReleaseAction>)
      returns (r: Reference)
      requires Valid() && monitor.Valid()
      modifies this`referenceTypeGetter, this`equalityChecker, v8.natives, monitor, monitor.ids
      ensures Valid()
      ensures old(referenceTypeGetter) != null ==> referenceTypeGetter == old(referenceTypeGetter)
      ensures old(equalityChecker) != null ==> equalityChecker == old(equalityChecker)
      ensures referenceTypeGetter != null && equalityChecker != null
      ensures var c := GetElementByPosition(runtimeHandle, handle, position, referenceTypeGetter, equalityChecker);
              v8.natives.calls == old(v8.natives.calls) + [c] &&
              r == Reference(v8.natives.oracle.longs(old(v8.natives.calls), c),
                             GetResultType(v8.natives.oracle.traits(old(v8.natives.calls), c)),
                             referenceTypeGetter, equalityChecker)
      ensures monitor.references == old(monitor.references)[old(monitor.ids.next) :=
                NativeReference(old(monitor.ids.next), r, ReleaseAction(runtimeHandle, r.handle))]
      ensures monitor.Valid() && monitor.performed == old(monitor.performed) && monitor.phase == old(monitor.phase)
      ensures monitor.interrupted == old(monitor.interrupted) && monitor.ids.next == old(monitor.ids.next) + 1
    {
      var typeGetter := ReferenceTypeGetter();
      var checker := EqualityChecker();
      r := NewReference(v8.natives, GetElementByPosition(runtimeHandle, handle, position, typeGetter, checker),
                        runtimeHandle, typeGetter, checker, monitor);
    }

    /** Applying an `arrayDataSetter(handle)`: one `setElementByPosition` call carrying the value's handle. */
    method SetItemByPosition(handle: Long, position: Int, value: Reference)
      modifies v8.natives
      ensures v8.natives.calls == old(v8.natives.calls) + [SetElementByPosition(runtimeHandle, handle, position, value.handle)]
    {
      v8.natives.Invoke(SetElementByPosition(runtimeHandle, handle, position, value.handle));
    }

    /**
     * `invokeFunction(receiver, args)` of a `functionInvoker(handle)`: one
     * `invokeFunction` call carrying the receiver's handle, the arguments'
     * handles in order and the memoised capabilities.
     */
    method InvokeFunction(handle: Long, receiver: Reference, args: array<Reference>,
                          monitor: ReferenceMonitor<Reference, ReleaseAction>)
      returns (r: Reference)
      requires Valid() && monitor.Valid()
      modifies this`referenceTypeGetter, this`equalityChecker, v8.natives, monitor, monitor.ids
      ensures Valid()
      ensures old(referenceTypeGetter) != null ==> referenceTypeGetter == old(referenceTypeGetter)
      ensures old(equalityChecker) != null ==> equalityChecker == old(equalityChecker)
      ensures referenceTypeGetter != null && equalityChecker != null
      ensures var c := Call.InvokeFunction(runtimeHandle, handle, receiver.handle, Handles(args[..]),
                                           referenceTypeGetter, equalityChecker);
              v8.natives.calls == old(v8.natives.calls) + [c] &&
              r == Reference(v8.natives.oracle.longs(old(v8.natives.calls), c),
                             GetResultType(v8.natives.oracle.traits(old(v8.natives.calls), c)),
                             referenceTypeGetter, equalityChecker)
      ensures monitor.references == old(monitor.references)[old(monitor.ids.next) :=
                NativeReference(old(monitor.ids.next), r, ReleaseAction(runtimeHandle, r.handle))]
      ensures monitor.Valid() && monitor.performed == old(monitor.performed) && monitor.phase == old(monitor.phase)
      ensures monitor.interrupted == old(monitor.interrupted) && monitor.ids.next == old(monitor.ids.next) + 1
    {
      var argHandles := ReferenceToHandle(args);
      var typeGetter := ReferenceTypeGetter();
      var checker := EqualityChecker();
      r := NewReference(v8.natives, Call.InvokeFunction(runtimeHandle, handle, receiver.handle, argHandles[..], typeGetter, checker),
                        runtimeHandle, typeGetter, checker, monitor);
    }

    /**
     * `invokeConstructor(args)` of a `functionInvoker(handle)`: one
     * `invokeConstructor` call carrying the arguments' handles in order and
     * the memoised capabilities.
     */
    method InvokeConstructor(handle: Long, args: array<Reference>, monitor: ReferenceMonitor<Reference, ReleaseAction>)
      returns (r: Reference)
      requires Valid() && monitor.Valid()
      modifies this`referenceTypeGetter, this`equalityChecker, v8.natives, monitor, monitor.ids
      ensures Valid()
      ensures old(referenceTypeGetter) != null ==> referenceTypeGetter == old(referenceTypeGetter)
      ensures old(equalityChecker) != null ==> equalityChecker == old(equalityChecker)
      ensures referenceTypeGetter != null && equalityChecker != null
      ensures var c := Call.InvokeConstructor(runtimeHandle, handle, Handles(args[..]), referenceTypeGetter, equalityChecker);
              v8.natives.calls == old(v8.natives.calls) + [c] &&
              r == Reference(v8.natives.oracle.longs(old(v8.natives.calls), c),
                             GetResultType(v8.natives.oracle.traits(old(v8.natives.calls), c)),
                             referenceTypeGetter, equalityChecker)
      ensures monitor.references == old(monitor.references)[old(monitor.ids.next) :=
                NativeReference(old(monitor.ids.next), r, ReleaseAction(runtimeHandle, r.handle))]
      ensures monitor.Valid() && monitor.performed == old(monitor.performed) && monitor.phase == old(monitor.phase)
      ensures monitor.interrupted == old(monitor.interrupted) && monitor.ids.next == old(monitor.ids.next) + 1
    {
      var argHandles := ReferenceToHandle(args);
      var typeGetter := ReferenceTypeGetter();
      var checker := EqualityChecker();
      r := NewReference(v8.natives, Call.InvokeConstructor(runtimeHandle, handle, argHandles[..], typeGetter, checker),
                        runtimeHandle, typeGetter, checker, monitor);
    }

    /**
     * Applying a `functionSetter(handle)` to a callback: one
     * `setFunctionHandler` call carrying the callback and the memoised
     * capabilities.
     */
    method SetFunction(handle: Long, callback: Option<object>)
      requires Valid()
      modifies this`referenceTypeGetter, this`equalityChecker, v8.natives
      ensures Valid()
      ensures old(referenceTypeGetter) != null ==> referenceTypeGetter == old(referenceTypeGetter)
      ensures old(equalityChecker) != null ==> equalityChecker == old(equalityChecker)
      ensures referenceTypeGetter != null && equalityChecker != null
      ensures v8.natives.calls == old(v8.natives.calls) +
                [SetFunctionHandler(runtimeHandle, handle, callback, referenceTypeGetter, equalityChecker)]
    {
      var typeGetter := ReferenceTypeGetter();
      var checker := EqualityChecker();
      v8.natives.Invoke(SetFunctionHandler(runtimeHandle, handle, callback, typeGetter, checker));
    }
  }
}
