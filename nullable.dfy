/** Nullable references of the source language, and how a nullable string
    is spliced into an interpolated string. */
module Nullable {

  /** A reference that may be null: `None` stands for null. */
  datatype Option<+T> = None | Some(value: T)

  /** Success or failure of an operation that returns nothing. */
  datatype Outcome<+E> = Pass | Fail(error: E)

  /** A value, or the exception thrown instead of returning one. */
  datatype Result<+T, +E> = Success(value: T) | Failure(error: E)

  /** The text an interpolated string shows for a nullable string:
      a null string is spliced in as the empty string. */
  function Text(s: Option<string>): string
  {
    match s
    case None => ""
    case Some(v) => v
  }

  /** `string.IsNullOrEmpty`. */
  predicate IsNullOrEmpty(s: Option<string>)
  {
    s.None? || s.value == ""
  }
}
