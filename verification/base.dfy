/**
 Shared vocabulary of the model: optional values, results, pass/fail
 outcomes, bytes and timestamps.
 */
module Base {

  /** A value that may be absent (Python's `Optional`). */
  datatype Option<+T> = None | Some(value: T)

  /** Either a value or the error that prevented producing it (a raised exception). */
  datatype Result<+T, +E> = Success(value: T) | Failure(error: E)

  /** The outcome of a call that returns nothing on success. */
  datatype Outcome<+E> = Pass | Fail(error: E)

  /** One octet of a payload. */
  newtype byte = x: int | 0 <= x < 256

  /** An instant, as the source's `datetime`; its calendar meaning and
      ISO-8601 rendering are not modelled. */
  type Timestamp = int

  function Min(a: int, b: int): int
  {
    if a <= b then a else b
  }

  /** `p` is a prefix of `s` (Python's `s.startswith(p)`). */
  predicate StartsWith(s: string, p: string)
  {
    |p| <= |s| && s[..|p|] == p
  }

  /** `p` occurs in `s` starting at index `k`. */
  predicate OccursAt(s: string, p: string, k: int)
  {
    0 <= k <= |s| - |p| && s[k..k + |p|] == p
  }

  /** `p` occurs somewhere inside `s` (Python's `p in s`). */
  ghost predicate Contains(s: string, p: string)
  {
    exists k :: OccursAt(s, p, k)
  }

  lemma StartsWithContains(s: string, p: string)
    requires StartsWith(s, p)
    ensures Contains(s, p)
  {
    assert OccursAt(s, p, 0);
  }
}
