/**
 * The engine side of `equalsValue(runtimeHandle, first, second)`, the
 * question every equality-checker of the legacy generation asks. A handle
 * number is the address of a native `Handle`; `Handle::FromLong` turns it
 * back into that pointer, so two pointers compare equal exactly when the
 * two numbers do.
 */
module NativeEquality {
  import opened JavaTypes

  /** `Handle::FromLong(h)`: the pointer a handle number stands for, kept as the number itself. */
  function HandlePointer(h: Long): Long {
    h
  }

  /**
   * The legacy `equalsValue` as written: the pointer of the first handle is
   * compared with itself, so the answer is `true` whatever the two handles.
   */
  function LegacyEqualsValueAsWritten(first: Long, second: Long): (equal: bool)
    ensures equal
  {
    HandlePointer(first) == HandlePointer(first)
  }

  /**
   * The legacy `equalsValue` as evidently intended: the pointer of the first
   * handle compared with the pointer of the second, which is handle identity.
   */
  function LegacyEqualsValue(first: Long, second: Long): (equal: bool)
    ensures equal <==> first == second
  {
    HandlePointer(first) == HandlePointer(second)
  }

  /** Two different handles that the code as written calls equal and the intended comparison does not. */
  lemma AsWrittenConfusesDistinctHandles()
    ensures LegacyEqualsValueAsWritten(1, 2)
    ensures !LegacyEqualsValue(1, 2)
  {
  }

  /** The intended comparison is an equivalence, so `Reference.equals` built on it is one too. */
  lemma LegacyEqualsValueIsEquivalence(a: Long, b: Long, c: Long)
    ensures LegacyEqualsValue(a, a)
    ensures LegacyEqualsValue(a, b) == LegacyEqualsValue(b, a)
    ensures LegacyEqualsValue(a, b) && LegacyEqualsValue(b, c) ==> LegacyEqualsValue(a, c)
  {
  }
}
