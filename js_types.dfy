/** The value-kind tags of the bridge and the two generations of its code. */
module JSTypes {

  /**
   * The two generations of the bridge: `Current` is the `jjbridge.engine`
   * packages with the natives under `src/main/cpp/V8`; `Legacy` is the
   * `jjbridge.v8` and `jjbridge.utils` packages with the natives in
   * `core/src/main/cpp/V8-wrapper.cpp`.
   */
  datatype Generation = Current | Legacy

  /**
   * A JS value kind as the Java `JSType` enum names it. `Float` is the
   * current name of the tag the legacy code calls `Double`. `Other` stands
   * for any enum constant the bridge has no case for.
   */
  datatype JSType =
    | Undefined
    | Null
    | Boolean
    | Integer
    | Float
    | String
    | External
    | Object
    | Date
    | Array
    | Function
    | Other(name: string)

  /** The tags every dispatch of the bridge has a case for. */
  predicate Supported(t: JSType) {
    !t.Other?
  }
}
