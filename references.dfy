/**
 * `Reference`: the Java-side descriptor of a JS value held by a runtime,
 * and the two capabilities it is built with. Both generations share the
 * record; only the current one overrides `hashCode`.
 */
module References {
  import opened Wrappers
  import opened JavaTypes
  import opened JSTypes
  import opened Environment
  import opened Boundary

  /**
   * The type-getter of one runtime: the closure `AccessorsFactory`
   * memoises, which asks the engine for the tag of a handle.
   */
  class TypeGetter {
    const natives: Natives
    const runtimeHandle: Long

    constructor (natives: Natives, runtimeHandle: Long)
      ensures this.natives == natives && this.runtimeHandle == runtimeHandle
    {
      this.natives := natives;
      this.runtimeHandle := runtimeHandle;
    }

    /** `getType(handle)`: one `getReferenceType(runtimeHandle, handle)` call. */
    method GetType(handle: Long) returns (t: Option<JSType>)
      modifies natives
      ensures natives.calls == old(natives.calls) + [GetReferenceType(runtimeHandle, handle)]
      ensures t == GetResultType(natives.oracle.traits(old(natives.calls), GetReferenceType(runtimeHandle, handle)))
    {
      t := natives.AskType(GetReferenceType(runtimeHandle, handle));
    }
  }

  /**
   * The equality-checker of one runtime: the closure `AccessorsFactory`
   * memoises, which asks the engine whether two handles hold equal values.
   */
  class EqualityChecker {
    const natives: Natives
    const runtimeHandle: Long

    constructor (natives: Natives, runtimeHandle: Long)
      ensures this.natives == natives && this.runtimeHandle == runtimeHandle
    {
      this.natives := natives;
      this.runtimeHandle := runtimeHandle;
    }

    /** `checkAreEqual(first, second)`: one `equalsValue(runtimeHandle, first, second)` call. */
    method CheckAreEqual(first: Long, second: Long) returns (b: bool)
      modifies natives
      ensures natives.calls == old(natives.calls) + [EqualsValue(runtimeHandle, first, second)]
      ensures b == natives.oracle.flags(old(natives.calls), EqualsValue(runtimeHandle, first, second))
    {
      b := natives.AskFlag(EqualsValue(runtimeHandle, first, second));
    }
  }

  /** The argument of `equals(Object)`: a `Reference`, or any other object or `null`. */
  datatype Candidate = AReference(reference: Reference) | NotAReference

  /**
   * An immutable descriptor: the handle, the tag the value had when the
   * reference was made (`null` when the engine had none), and the runtime's
   * two capabilities.
   */
  datatype Reference = Reference(
    handle: Long,
    nominalType: Option<JSType>,
    typeGetter: TypeGetter,
    equalityChecker: EqualityChecker)
  {
    /** `getActualType()`: asks the type-getter about this handle, afresh on every call. */
    method GetActualType() returns (t: Option<JSType>)
      modifies typeGetter.natives
      ensures typeGetter.natives.calls ==
                old(typeGetter.natives.calls) + [GetReferenceType(typeGetter.runtimeHandle, handle)]
      ensures t == GetResultType(typeGetter.natives.oracle.traits(
                     old(typeGetter.natives.calls), GetReferenceType(typeGetter.runtimeHandle, handle)))
    {
      t := typeGetter.GetType(handle);
    }

    /**
     * `equals(obj)`: false, with no call, for anything that is not a
     * `Reference`; otherwise the receiver's checker alone decides, on the two
     * handles. Nominal types are not compared.
     */
    method Equals(obj: Candidate) returns (b: bool)
      modifies equalityChecker.natives
      ensures obj.NotAReference? ==> !b && equalityChecker.natives.calls == old(equalityChecker.natives.calls)
      ensures obj.AReference? ==>
                equalityChecker.natives.calls ==
                  old(equalityChecker.natives.calls) + [EqualsValue(equalityChecker.runtimeHandle, handle, obj.reference.handle)]
      ensures obj.AReference? ==>
                b == equalityChecker.natives.oracle.flags(
                       old(equalityChecker.natives.calls),
                       EqualsValue(equalityChecker.runtimeHandle, handle, obj.reference.handle))
    {
      match obj
      case NotAReference =>
        b := false;
      case AReference(other) =>
        b := equalityChecker.CheckAreEqual(handle, other.handle);
    }

    /** `hashCode()` of the current generation (see `ReferenceHash`). */
    function HashCode(typeHash: JSType -> bv32): (h: Result<bv32, Exception>)
      ensures h.Err? <==> nominalType.None?
      ensures h.Ok? ==> h.value == Times31(JavaFold(handle)) ^ typeHash(nominalType.value)
    {
      ReferenceHash(handle, nominalType, typeHash)
    }
  }

  /**
   * The hash of a reference: the folded handle times 31, with 32-bit
   * wrap-around, xor the hash of the nominal tag. The enum's own hash is
   * identity-based, so it is a parameter. A `null` nominal tag throws
   * `NullPointerException`. The contract states the hash as Java's
   * `((int)(handle ^ (handle >>> 32)) * 31) ^ tagHash` on the 64-bit word,
   * the multiplication as `Times31` (see `Times31IsMultiplication`).
   */
  function ReferenceHash(handle: Long, nominalType: Option<JSType>, typeHash: JSType -> bv32): (r: Result<bv32, Exception>)
    ensures r.Err? <==> nominalType.None?
    ensures r.Err? ==> r.error == NullPointerException
    ensures r.Ok? ==> r.value == Times31(JavaFold(handle)) ^ typeHash(nominalType.value)
  {
    match nominalType
    case None => Err(NullPointerException)
    case Some(t) =>
      FoldLongIsJavaFold(handle);
      Ok(Times31(FoldLong(handle)) ^ typeHash(t))
  }

  /** The hash depends on the handle and the nominal tag only, never on the capabilities. */
  lemma HashIgnoresCapabilities(a: Reference, b: Reference, typeHash: JSType -> bv32)
    requires a.handle == b.handle && a.nominalType == b.nominalType
    ensures a.HashCode(typeHash) == b.HashCode(typeHash)
  {
  }

  /**
   * Two references on the same handle whose nominal tags hash differently
   * get different hashes, although `equals` may hold between them (their
   * checker compares the engine values only): the hash is not consistent
   * with the checker-decided equality.
   */
  lemma SameHandleDifferentTagsHashApart(a: Reference, b: Reference, typeHash: JSType -> bv32)
    requires a.handle == b.handle
    requires a.nominalType.Some? && b.nominalType.Some?
    requires typeHash(a.nominalType.value) != typeHash(b.nominalType.value)
    ensures a.HashCode(typeHash) != b.HashCode(typeHash)
  {
    var x := Times31(FoldLong(a.handle));
    var s := typeHash(a.nominalType.value);
    var t := typeHash(b.nominalType.value);
    assert (x ^ s) ^ x == s;
    assert (x ^ t) ^ x == t;
  }
}
