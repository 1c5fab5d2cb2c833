/** Values shared by every module: optional values, results, and the two
    Python exception classes the driver code raises. */
module Common {

  datatype Option<+T> = None | Some(value: T)

  /** Python's `RuntimeError` and `ValueError`, each with its message. */
  datatype Error = RuntimeError(message: string) | ValueError(message: string)

  /** A value, or the exception the Python code raises instead of returning it. */
  datatype Result<+T> = Success(value: T) | Failure(error: Error)

  /** `needle` occurs in `hay` starting at position `i`. */
  predicate OccursAt(hay: string, needle: string, i: int)
  {
    0 <= i && i + |needle| <= |hay| && hay[i..i + |needle|] == needle
  }

  /** Python's `needle in hay` for strings. */
  ghost predicate Contains(hay: string, needle: string)
  {
    exists i :: OccursAt(hay, needle, i)
  }

  /** An occurrence inside a string stays an occurrence, shifted, once text is
      put in front of it and after it. */
  lemma OccursInContext(prefix: string, mid: string, suffix: string, needle: string, i: int)
    requires OccursAt(mid, needle, i) || (mid == needle && i == 0)
    ensures OccursAt(prefix + mid + suffix, needle, |prefix| + i)
    ensures prefix == [] ==> OccursAt(mid + suffix, needle, i)
    ensures suffix == [] ==> OccursAt(prefix + mid, needle, |prefix| + i)
  {
  }
}
