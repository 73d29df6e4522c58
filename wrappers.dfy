/** The error returns of the Go code: a value or an error. */
module Wrappers {

  /** A value that may be absent (a nil pointer, a nil map, a missing map key). */
  datatype Option<+T> = None | Some(value: T) {
    function GetOr(default: T): T {
      if Some? then value else default
    }
  }

  /** `(T, error)`: a value when the error is nil, the error otherwise. */
  datatype Result<+T, +E> = Ok(value: T) | Err(error: E)

  /** A bare `error`: nil or not. */
  datatype Outcome<+E> = Pass | Fail(error: E)
}

/** Substrings, for the messages and scripts the core composes. */
module Text {
  /** s occurs in t at position i. */
  predicate OccursAt<T(==)>(t: seq<T>, s: seq<T>, i: int) {
    0 <= i && i + |s| <= |t| && t[i..i + |s|] == s
  }

  /** s occurs in t. */
  predicate Contains<T(==)>(t: seq<T>, s: seq<T>) {
    exists i | 0 <= i <= |t| :: OccursAt(t, s, i)
  }
}
