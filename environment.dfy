/** `Environment::getResultType`: how the native side classifies a V8 value. */
module Environment {
  import opened Wrappers
  import opened JSTypes

  /** The answers of V8's `Is*` predicates for one value. */
  datatype ValueTraits = ValueTraits(
    isUndefined: bool,
    isNull: bool,
    isBoolean: bool,
    isInt32: bool,
    isNumber: bool,
    isString: bool,
    isExternal: bool,
    isObject: bool,
    isArray: bool,
    isDate: bool,
    isFunction: bool)

  /** The predicates tested on every value, in the order they are tested. */
  function ValueTests(v: ValueTraits): seq<bool> {
    [v.isUndefined, v.isNull, v.isBoolean, v.isInt32, v.isNumber, v.isString, v.isExternal, v.isObject]
  }

  /** The tag each of `ValueTests` stands for; an object is refined further. */
  const VALUE_TAGS: seq<JSType> := [Undefined, Null, Boolean, Integer, Float, String, External, Object]

  /** The predicates tested on an object, in order. */
  function ObjectTests(v: ValueTraits): seq<bool> {
    [v.isArray, v.isDate, v.isFunction]
  }

  /** The tag each of `ObjectTests` stands for, followed by the fallback `Object`. */
  const OBJECT_TAGS: seq<JSType> := [Array, Date, Function, Object]

  /** The position of the first true test, or `|tests|` when none holds. */
  function FirstTrue(tests: seq<bool>): (i: nat)
    ensures i <= |tests|
    ensures i < |tests| ==> tests[i]
    ensures forall j :: 0 <= j < i ==> !tests[j]
  {
    FirstTrueFrom(tests, 0)
  }

  /** The position of the first true test at or after `k`. */
  function FirstTrueFrom(tests: seq<bool>, k: nat): (i: nat)
    requires k <= |tests|
    requires forall j :: 0 <= j < k ==> !tests[j]
    ensures k <= i <= |tests|
    ensures i < |tests| ==> tests[i]
    ensures forall j :: 0 <= j < i ==> !tests[j]
    decreases |tests| - k
  {
    if k == |tests| then k
    else if tests[k] then k
    else FirstTrueFrom(tests, k + 1)
  }

  /**
   * The tag of a value: the first of Undefined, Null, Boolean, Int32, Number,
   * String, External, Object that holds decides it; an object is then an
   * Array, a Date or a Function, in that order, and otherwise an Object. A
   * value none of the predicates holds for has no tag (`nullptr`).
   */
  function GetResultType(v: ValueTraits): (r: Option<JSType>)
    ensures r.None? <==>
              !(v.isUndefined || v.isNull || v.isBoolean || v.isInt32 || v.isNumber || v.isString ||
                v.isExternal || v.isObject)
    ensures r.Some? ==> Supported(r.value)
    ensures r.Some? && (r.value == Array || r.value == Date || r.value == Function || r.value == Object) ==> v.isObject
  {
    if v.isUndefined then Some(Undefined)
    else if v.isNull then Some(Null)
    else if v.isBoolean then Some(Boolean)
    else if v.isInt32 then Some(Integer)
    else if v.isNumber then Some(Float)
    else if v.isString then Some(String)
    else if v.isExternal then Some(External)
    else if v.isObject then
      if v.isArray then Some(Array)
      else if v.isDate then Some(Date)
      else if v.isFunction then Some(Function)
      else Some(Object)
    else None
  }

  /**
   * The cascade is a first match: the tag is the one of the first value
   * predicate that holds, refined for an object by the first of its own
   * predicates that holds, and there is no tag exactly when none holds.
   */
  lemma GetResultTypeIsFirstMatch(v: ValueTraits)
    ensures GetResultType(v).None? <==> FirstTrue(ValueTests(v)) == |ValueTests(v)|
    ensures FirstTrue(ValueTests(v)) < |ValueTests(v)| - 1 ==>
              GetResultType(v) == Some(VALUE_TAGS[FirstTrue(ValueTests(v))])
    ensures FirstTrue(ValueTests(v)) == |ValueTests(v)| - 1 ==>
              GetResultType(v) == Some(OBJECT_TAGS[FirstTrue(ObjectTests(v))])
  {
    var tests := ValueTests(v);
    if v.isUndefined { FirstTrueIsFirst(tests, 0); }
    else if v.isNull { FirstTrueIsFirst(tests, 1); }
    else if v.isBoolean { FirstTrueIsFirst(tests, 2); }
    else if v.isInt32 { FirstTrueIsFirst(tests, 3); }
    else if v.isNumber { FirstTrueIsFirst(tests, 4); }
    else if v.isString { FirstTrueIsFirst(tests, 5); }
    else if v.isExternal { FirstTrueIsFirst(tests, 6); }
    else if v.isObject {
      FirstTrueIsFirst(tests, 7);
      var objectTests := ObjectTests(v);
      if v.isArray { FirstTrueIsFirst(objectTests, 0); }
      else if v.isDate { FirstTrueIsFirst(objectTests, 1); }
      else if v.isFunction { FirstTrueIsFirst(objectTests, 2); }
      else { FirstTrueOfNone(objectTests); }
    } else {
      FirstTrueOfNone(tests);
    }
  }

  /**
   * An Int32 is also a Number, and it is read back as an Integer: a number
   * with an integral value such as 3456.0 has the Integer tag.
   */
  lemma Int32NumberIsInteger(v: ValueTraits)
    requires !v.isUndefined && !v.isNull && !v.isBoolean
    requires v.isInt32 && v.isNumber
    ensures GetResultType(v) == Some(Integer)
  {
  }

  /** A number that is not an Int32 has the Float tag (`Double` in the legacy code). */
  lemma NonInt32NumberIsFloat(v: ValueTraits)
    requires !v.isUndefined && !v.isNull && !v.isBoolean
    requires !v.isInt32 && v.isNumber
    ensures GetResultType(v) == Some(Float)
  {
  }

  /** Only objects get the Array, Date, Function and Object tags. */
  lemma ObjectTagsNeedObject(v: ValueTraits)
    ensures GetResultType(v) in {Some(Array), Some(Date), Some(Function), Some(Object)} ==> v.isObject
  {
  }

  /** `FirstTrue` is the one position that is true with only false before it. */
  lemma FirstTrueIsFirst(tests: seq<bool>, i: nat)
    requires i < |tests| && tests[i]
    requires forall j :: 0 <= j < i ==> !tests[j]
    ensures FirstTrue(tests) == i
  {
  }

  /** With no true test, `FirstTrue` is past the end. */
  lemma FirstTrueOfNone(tests: seq<bool>)
    requires forall j :: 0 <= j < |tests| ==> !tests[j]
    ensures FirstTrue(tests) == |tests|
  {
  }
}
