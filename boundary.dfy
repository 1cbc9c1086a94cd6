/**
 * The native boundary of the bridge. Every `native` method of the Java
 * `V8` class is a call the engine answers; the engine itself is not
 * modelled. A `Natives` object stands for the loaded native library: it
 * records every call made across the boundary, in order, and takes each
 * answer from an oracle that may depend on all the calls made before.
 */
module Boundary {
  import opened Wrappers
  import opened JavaTypes
  import opened JSTypes
  import opened Environment
  import opened HandleCache

  /**
   * One call of a `V8` native, with its arguments. `handle` is the handle an
   * accessor is bound to; `typeGetter` and `equalityChecker` are the
   * capability objects handed to calls that produce references.
   */
  datatype Call =
    | SetFlags(flags: string)
    | InitializeV8(nativeLibraryPath: string)
    | ReleaseReference(runtimeHandle: Long, handle: Long)
    | CreateRuntime(referenceMonitor: object, functionsCache: Cache<object>, typeGetterCache: Cache<object>,
                    equalityCheckerCache: Cache<object>, externalCache: Cache<object>)
    | ReleaseRuntime(runtimeHandle: Long)
    | GetReferenceType(runtimeHandle: Long, handle: Long)
    | ExecuteScript(runtimeHandle: Long, fileName: string, sourceCode: string,
                    typeGetter: object, equalityChecker: object)
    | GlobalObjectReference(runtimeHandle: Long, typeGetter: object, equalityChecker: object)
    | NewValue(runtimeHandle: Long, valueType: JSType, typeGetter: object, equalityChecker: object)
    | EqualsValue(runtimeHandle: Long, firstHandle: Long, secondHandle: Long)
    | InitUndefinedValue(runtimeHandle: Long, handle: Long)
    | InitNullValue(runtimeHandle: Long, handle: Long)
    | GetBooleanValue(runtimeHandle: Long, handle: Long)
    | SetBooleanValue(runtimeHandle: Long, handle: Long, booleanValue: bool)
    | InitBooleanValue(runtimeHandle: Long, handle: Long)
    | GetLongValue(runtimeHandle: Long, handle: Long)
    | SetLongValue(runtimeHandle: Long, handle: Long, longValue: Long)
    | InitLongValue(runtimeHandle: Long, handle: Long)
    | GetIntegerValue(runtimeHandle: Long, handle: Long)
    | SetIntegerValue(runtimeHandle: Long, handle: Long, intValue: Int)
    | InitIntegerValue(runtimeHandle: Long, handle: Long)
    | GetDoubleValue(runtimeHandle: Long, handle: Long)
    | SetDoubleValue(runtimeHandle: Long, handle: Long, doubleValue: Double)
    | InitDoubleValue(runtimeHandle: Long, handle: Long)
    | GetStringValue(runtimeHandle: Long, handle: Long)
    | SetStringValue(runtimeHandle: Long, handle: Long, stringValue: string)
    | InitStringValue(runtimeHandle: Long, handle: Long)
    | GetExternalValue(runtimeHandle: Long, handle: Long)
    | SetExternalValue(runtimeHandle: Long, handle: Long, externalValue: Option<object>)
    | InitExternalValue(runtimeHandle: Long, handle: Long)
    | GetObjectProperty(runtimeHandle: Long, handle: Long, property: string,
                        typeGetter: object, equalityChecker: object)
    | SetObjectProperty(runtimeHandle: Long, handle: Long, property: string, valueHandle: Long)
    | InitObjectValue(runtimeHandle: Long, handle: Long)
    | GetDateTimeString(runtimeHandle: Long, handle: Long)
    | SetDateTime(runtimeHandle: Long, handle: Long, dateTime: string)
    | InitDateTimeValue(runtimeHandle: Long, handle: Long)
    | InvokeFunction(runtimeHandle: Long, handle: Long, receiverHandle: Long, argHandles: seq<Long>,
                     typeGetter: object, equalityChecker: object)
    | InvokeConstructor(runtimeHandle: Long, handle: Long, argHandles: seq<Long>,
                        typeGetter: object, equalityChecker: object)
    | SetFunctionHandler(runtimeHandle: Long, handle: Long, handler: Option<object>,
                         typeGetter: object, equalityChecker: object)
    | InitFunctionValue(runtimeHandle: Long, handle: Long)
    | GetArraySize(runtimeHandle: Long, handle: Long)
    | GetElementByPosition(runtimeHandle: Long, handle: Long, position: Int,
                           typeGetter: object, equalityChecker: object)
    | SetElementByPosition(runtimeHandle: Long, handle: Long, position: Int, valueHandle: Long)
    | InitArrayValue(runtimeHandle: Long, handle: Long)

  /**
   * How the engine answers a call, given every call made before it. A call
   * that produces a reference is answered with the new handle (`longs`) and
   * the V8 predicates of the value it holds (`traits`).
   */
  datatype Oracle = Oracle(
    flags: (seq<Call>, Call) -> bool,
    longs: (seq<Call>, Call) -> Long,
    ints: (seq<Call>, Call) -> Int,
    doubles: (seq<Call>, Call) -> Double,
    texts: (seq<Call>, Call) -> string,
    externals: (seq<Call>, Call) -> Option<object>,
    traits: (seq<Call>, Call) -> ValueTraits)

  /** The loaded native library: the calls made so far and the engine's answers. */
  class Natives {
    const oracle: Oracle
    var calls: seq<Call>

    constructor (oracle: Oracle)
      ensures this.oracle == oracle
      ensures calls == []
    {
      this.oracle := oracle;
      calls := [];
    }

    /** A call that returns nothing. */
    method Invoke(c: Call)
      modifies this
      ensures calls == old(calls) + [c]
    {
      calls := calls + [c];
    }

    /** A call that returns a `boolean`. */
    method AskFlag(c: Call) returns (b: bool)
      modifies this
      ensures b == oracle.flags(old(calls), c)
      ensures calls == old(calls) + [c]
    {
      b := oracle.flags(calls, c);
      calls := calls + [c];
    }

    /** A call that returns a `long`. */
    method AskLong(c: Call) returns (x: Long)
      modifies this
      ensures x == oracle.longs(old(calls), c)
      ensures calls == old(calls) + [c]
    {
      x := oracle.longs(calls, c);
      calls := calls + [c];
    }

    /** A call that returns an `int`. */
    method AskInt(c: Call) returns (x: Int)
      modifies this
      ensures x == oracle.ints(old(calls), c)
      ensures calls == old(calls) + [c]
    {
      x := oracle.ints(calls, c);
      calls := calls + [c];
    }

    /** A call that returns a `double`. */
    method AskDouble(c: Call) returns (x: Double)
      modifies this
      ensures x == oracle.doubles(old(calls), c)
      ensures calls == old(calls) + [c]
    {
      x := oracle.doubles(calls, c);
      calls := calls + [c];
    }

    /** A call that returns a `String`. */
    method AskText(c: Call) returns (s: string)
      modifies this
      ensures s == oracle.texts(old(calls), c)
      ensures calls == old(calls) + [c]
    {
      s := oracle.texts(calls, c);
      calls := calls + [c];
    }

    /** A call that returns a host object from the external cache (or `null`). */
    method AskExternal(c: Call) returns (o: Option<object>)
      modifies this
      ensures o == oracle.externals(old(calls), c)
      ensures calls == old(calls) + [c]
    {
      o := oracle.externals(calls, c);
      calls := calls + [c];
    }

    /** A call that returns the engine's tag for a value (`getReferenceType`). */
    method AskType(c: Call) returns (t: Option<JSType>)
      modifies this
      ensures t == GetResultType(oracle.traits(old(calls), c))
      ensures calls == old(calls) + [c]
    {
      t := GetResultType(oracle.traits(calls, c));
      calls := calls + [c];
    }

    /** A call that allocates a new handle and returns it with the nominal tag of its value. */
    method AskHandle(c: Call) returns (handle: Long, nominalType: Option<JSType>)
      modifies this
      ensures handle == oracle.longs(old(calls), c)
      ensures nominalType == GetResultType(oracle.traits(old(calls), c))
      ensures calls == old(calls) + [c]
    {
      handle := oracle.longs(calls, c);
      nominalType := GetResultType(oracle.traits(calls, c));
      calls := calls + [c];
    }
  }
}
