/** Absence and failure, as values. */
module Options {

  datatype Option<+T> = None | Some(value: T)

  datatype Result<+T, +E> = Ok(value: T) | Err(error: E)

  function Max(a: int, b: int): int { if a >= b then a else b }

  function Min(a: int, b: int): int { if a <= b then a else b }

  /** A non-empty sequence is its init and its last element. */
  lemma InitAndLast<T>(s: seq<T>)
    requires s != []
    ensures s == s[..|s|-1] + [s[|s|-1]]
  {
  }
}
