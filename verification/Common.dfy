/**
 Small datatypes and arithmetic shared by every component of the server model.

 A convention of all files: a predicate whose body is `var ok := ...; ok` is one fact to the verifier
 wherever it is used, and not its parts.
 */
module Common {

  datatype Option<+T> = None | Some(value: T)

  /** The outcome of an operation that may throw: the returned value or the error. */
  datatype Result<+T, +E> = Ok(value: T) | Err(error: E)

  function MinReal(x: real, y: real): real { if x <= y then x else y }

  function MaxInt(x: int, y: int): int { if x >= y then x else y }

  /** Math.ceil on exact reals. */
  function Ceil(x: real): int { -((-x).Floor) }

  lemma CeilIsLeastUpperInt(x: real, w: int)
    ensures w as real >= x <==> w >= Ceil(x)
  {
    assert (-w) as real <= -x <==> -w <= (-x).Floor;
  }

  lemma MinusTwice<K, V>(m: map<K, V>, a: set<K>, b: set<K>)
    ensures m - a - b == m - (a + b)
  {
  }
}
